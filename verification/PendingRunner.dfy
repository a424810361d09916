/** One wire attempt and its presentation queue (pendingRunnerInvocation.ts). */
module PendingRunner {
  import opened Text

  datatype Response = Known(body: string) | RemoteUnknown(reason: string)

  /** A plain chunk, a `completed` chunk, or a final frame. */
  datatype Output = Chunk(data: string) | Completed(response: Response) | Final(response: Response)

  function ResponseOf(o: Output): Option<Response> {
    if o.Chunk? then None else Some(o.response)
  }

  /** The output settles the remote side. */
  predicate IsTerminal(o: Output) {
    ResponseOf(o).Some? && !ResponseOf(o).value.RemoteUnknown?
  }

  const QUEUE_LIMIT := 256
  const BYTE_LIMIT := 8 * 1024 * 1024

  /** JSON byte length, whatever the encoder makes it. */
  type Sizes = Output -> nat

  function Bytes(queue: seq<Output>, size: Sizes): nat {
    if queue == [] then 0 else size(queue[0]) + Bytes(queue[1..], size)
  }

  lemma {:induction false} BytesAppend(queue: seq<Output>, o: Output, size: Sizes)
    ensures Bytes(queue + [o], size) == Bytes(queue, size) + size(o)
  {
    if queue == [] {
      assert queue + [o] == [o];
    } else {
      BytesAppend(queue[1..], o, size);
      assert (queue + [o])[1..] == queue[1..] + [o];
    }
  }

  /**
   * The fields of PendingRunnerInvocation. `late`, `cancels` and `reports` count what its three
   * callbacks received: late terminals, cancel frames and unresolved notices.
   */
  datatype Pending = Pending(
    queue: seq<Output>, queuedBytes: int, localEnded: bool, cancelSent: bool, dispatched: bool, remoteDone: bool,
    cancelTimer: Option<string>, deadlineTimer: bool, late: seq<Output>, cancels: nat, reports: nat)

  const NEW := Pending([], 0, false, false, false, false, None, false, [], 0, 0)

  predicate Retained(p: Pending) {
    p.dispatched && !p.remoteDone
  }

  function Start(p: Pending): Pending {
    p.(dispatched := true, deadlineTimer := true)
  }

  function ClearTimers(p: Pending): Pending {
    p.(cancelTimer := None, deadlineTimer := false)
  }

  function Push(p: Pending, o: Output, size: Sizes): Pending {
    p.(queue := p.queue + [o], queuedBytes := p.queuedBytes + size(o))
  }

  function Cancel(p: Pending, reason: string): Pending {
    if p.remoteDone || !p.dispatched || p.cancelSent then p
    else p.(cancelSent := true, cancels := p.cancels + 1, cancelTimer := Some(reason))
  }

  function Unresolved(p: Pending, reason: string, size: Sizes): Pending {
    if p.remoteDone || p.localEnded then p
    else
      var final := Final(RemoteUnknown(reason));
      ClearTimers(p).(localEnded := true, queue := [final], queuedBytes := size(final), reports := p.reports + 1)
  }

  function Accept(p: Pending, o: Output, size: Sizes): Pending {
    if p.remoteDone then p
    else if IsTerminal(o) then
      var done := ClearTimers(p).(remoteDone := true);
      if p.localEnded then done.(late := p.late + [o]) else Push(done.(localEnded := true), o, size)
    else if ResponseOf(o).Some? then Unresolved(p, "remote_unconfirmed", size)
    else if p.localEnded then p
    else if |p.queue| >= QUEUE_LIMIT || p.queuedBytes + size(o) > BYTE_LIMIT then
      Unresolved(Cancel(p, "presentation_queue_limit"), "presentation_queue_limit", size)
    else Push(p, o, size)
  }

  function Detach(p: Pending, size: Sizes): Pending {
    var left := if Retained(p) then Unresolved(Cancel(p, "cancel_unconfirmed"), "iterator_detached", size) else p;
    left.(queue := [], queuedBytes := 0)
  }

  /** What next() does without waiting: an output, the end, or nothing yet. */
  datatype Poll = Value(output: Output) | Done | Waiting

  function PollOf(p: Pending): Poll {
    if p.queue != [] then Value(p.queue[0]) else if p.localEnded || !p.dispatched then Done else Waiting
  }

  function Shift(p: Pending, size: Sizes): Pending {
    if p.queue == [] then p else p.(queue := p.queue[1..], queuedBytes := p.queuedBytes - size(p.queue[0]))
  }

  // ---------------------------------------------------------------- the imperative form

  class PendingRunnerInvocation {
    const size: Sizes
    var queue: seq<Output>
    var queuedBytes: int
    var localEnded: bool
    var cancelSent: bool
    var dispatched: bool
    var remoteDone: bool
    var cancelTimer: Option<string>
    var deadlineTimer: bool
    var late: seq<Output>
    var cancels: nat
    var reports: nat

    function View(): Pending reads this {
      Pending(queue, queuedBytes, localEnded, cancelSent, dispatched, remoteDone, cancelTimer, deadlineTimer, late, cancels, reports)
    }

    constructor (size: Sizes)
      ensures View() == NEW && this.size == size
    {
      this.size := size;
      queue, queuedBytes, localEnded, cancelSent := [], 0, false, false;
      dispatched, remoteDone, cancelTimer, deadlineTimer := false, false, None, false;
      late, cancels, reports := [], 0, 0;
    }

    method Begin()
      modifies this
      ensures View() == Start(old(View()))
    {
      dispatched := true;
      deadlineTimer := true;
    }

    method ClearAll()
      modifies this
      ensures View() == ClearTimers(old(View()))
    {
      cancelTimer := None;
      deadlineTimer := false;
    }

    method SendCancel(reason: string)
      modifies this
      ensures View() == Cancel(old(View()), reason)
    {
      if remoteDone || !dispatched || cancelSent { return; }
      cancelSent := true;
      cancels := cancels + 1;
      cancelTimer := Some(reason);
    }

    method GiveUp(reason: string)
      modifies this
      ensures View() == Unresolved(old(View()), reason, size)
    {
      if remoteDone || localEnded { return; }
      localEnded := true;
      ClearAll();
      var final := Final(RemoteUnknown(reason));
      queue := [final];
      queuedBytes := size(final);
      reports := reports + 1;
    }

    method Receive(output: Output)
      modifies this
      ensures View() == Accept(old(View()), output, size)
    {
      if remoteDone { return; }
      var response := ResponseOf(output);
      if response.Some? && !response.value.RemoteUnknown? {
        remoteDone := true;
        ClearAll();
        if localEnded {
          late := late + [output];
          return;
        }
        localEnded := true;
      }
      if response.Some? && response.value.RemoteUnknown? {
        GiveUp("remote_unconfirmed");
        return;
      }
      if localEnded && response.None? { return; }
      var bytes := size(output);
      if response.None? && (|queue| >= QUEUE_LIMIT || queuedBytes + bytes > BYTE_LIMIT) {
        SendCancel("presentation_queue_limit");
        GiveUp("presentation_queue_limit");
        return;
      }
      queue := queue + [output];
      queuedBytes := queuedBytes + bytes;
    }

    method Next() returns (r: Poll)
      modifies this
      ensures r == PollOf(old(View())) && View() == Shift(old(View()), size)
    {
      if queue != [] {
        var output := queue[0];
        queue := queue[1..];
        queuedBytes := queuedBytes - size(output);
        return Value(output);
      }
      r := if localEnded || !dispatched then Done else Waiting;
    }

    method Leave()
      modifies this
      ensures View() == Detach(old(View()), size)
    {
      if dispatched && !remoteDone {
        SendCancel("cancel_unconfirmed");
        GiveUp("iterator_detached");
      }
      queue := [];
      queuedBytes := 0;
    }
  }

  // ---------------------------------------------------------------- every sequence of events

  datatype Event =
    | Dispatch
    | Arrive(output: Output)
    | Abort
    | Stale(reason: string)
    | Take
    | Quit
    | CancelTimer
    | DeadlineTimer

  /**
   * An attempt with its consumer: what the consumer took, the remote terminals put on the queue, and
   * whether the consumer has quit.
   */
  datatype Trace = Trace(p: Pending, taken: seq<Output>, queuedTerminals: seq<Output>, quit: bool)

  const BEGIN := Trace(NEW, [], [], false)

  /** Timers that are not armed do nothing when they fire. */
  function Happen(t: Trace, e: Event, size: Sizes): Trace {
    match e
    case Dispatch => t.(p := Start(t.p))
    case Arrive(o) =>
      t.(p := Accept(t.p, o, size),
         queuedTerminals := if !t.p.remoteDone && IsTerminal(o) && !t.p.localEnded then t.queuedTerminals + [o] else t.queuedTerminals)
    case Abort => t.(p := Cancel(t.p, "cancel_unconfirmed"))
    case Stale(reason) => t.(p := Unresolved(t.p, reason, size))
    case Take => if t.p.queue == [] then t else t.(p := Shift(t.p, size), taken := t.taken + [t.p.queue[0]])
    case Quit => t.(p := Detach(t.p, size), quit := true)
    case CancelTimer =>
      if t.p.cancelTimer.None? then t else t.(p := Unresolved(t.p.(cancelTimer := None), t.p.cancelTimer.value, size))
    case DeadlineTimer => if !t.p.deadlineTimer then t else t.(p := Cancel(t.p.(deadlineTimer := false), "execution_deadline"))
  }

  function Play(events: seq<Event>, size: Sizes): Trace {
    if events == [] then BEGIN else Happen(Play(events[..|events| - 1], size), events[|events| - 1], size)
  }

  /** Everything the consumer has seen or can still take. */
  function Visible(t: Trace): seq<Output> {
    t.taken + t.p.queue
  }

  predicate PlainChunks(outputs: seq<Output>) {
    forall i :: 0 <= i < |outputs| ==> outputs[i].Chunk?
  }

  /** Chunks, and once the attempt has ended locally exactly one response, at the end. */
  predicate ChunksThenFinal(outputs: seq<Output>, ended: bool) {
    if ended then |outputs| > 0 && !outputs[|outputs| - 1].Chunk? && PlainChunks(outputs[..|outputs| - 1])
    else PlainChunks(outputs)
  }

  /** The queue's accounting: its bytes, and at most 256 chunks within 8 MiB besides one final. */
  predicate QueueBounded(p: Pending, size: Sizes) {
    && p.queuedBytes == Bytes(p.queue, size)
    && (p.localEnded ==> forall i :: 0 <= i < |p.queue| - 1 ==> p.queue[i].Chunk?)
    && (!p.localEnded ==> PlainChunks(p.queue))
    && |WithoutFinal(p.queue)| <= QUEUE_LIMIT && Bytes(WithoutFinal(p.queue), size) <= BYTE_LIMIT
  }

  function WithoutFinal(queue: seq<Output>): seq<Output> {
    if queue != [] && !queue[|queue| - 1].Chunk? then queue[..|queue| - 1] else queue
  }

  /** A remote terminal is handed over once, by queue or by the late hook. */
  predicate HandedOnce(t: Trace) {
    && |t.queuedTerminals| + |t.p.late| == (if t.p.remoteDone then 1 else 0)
    && (t.p.remoteDone ==> t.p.localEnded && t.p.cancelTimer.None?)
    && (t.p.cancelTimer.Some? ==> t.p.cancelSent) && (t.p.deadlineTimer || t.p.cancelSent ==> t.p.dispatched)
    && (t.p.cancelSent <==> t.p.cancels == 1) && t.p.cancels <= 1
    && t.p.reports <= (if t.p.localEnded then 1 else 0)
    && t.p.reports + |t.queuedTerminals| == (if t.p.localEnded then 1 else 0)
    && (forall i :: 0 <= i < |t.p.late| ==> IsTerminal(t.p.late[i]))
  }

  predicate Consistent(t: Trace, size: Sizes) {
    && HandedOnce(t)
    && QueueBounded(t.p, size)
    && (!t.quit ==> ChunksThenFinal(Visible(t), t.p.localEnded))
    && (!t.quit && |t.queuedTerminals| == 1 ==> Visible(t) != [] && Visible(t)[|Visible(t)| - 1] == t.queuedTerminals[0])
  }

  lemma UnresolvedConsistent(t: Trace, reason: string, size: Sizes)
    requires Consistent(t, size)
    ensures Consistent(t.(p := Unresolved(t.p, reason, size)), size)
  {
    var t' := t.(p := Unresolved(t.p, reason, size));
    if t'.p != t.p {
      var final := Final(RemoteUnknown(reason));
      assert [final][1..] == [] && [final][..0] == [];
      assert Visible(t')[..|Visible(t')| - 1] == t.taken;
      if !t.quit { assert forall i :: 0 <= i < |t.taken| ==> t.taken[i] == Visible(t)[i]; }
    }
  }

  lemma CancelConsistent(t: Trace, reason: string, size: Sizes)
    requires Consistent(t, size)
    ensures Consistent(t.(p := Cancel(t.p, reason)), size)
  {}

  lemma PushBounded(p: Pending, o: Output, size: Sizes, ended: bool)
    requires QueueBounded(p, size) && !p.localEnded && (o.Chunk? || ended)
    requires o.Chunk? ==> |p.queue| < QUEUE_LIMIT && p.queuedBytes + size(o) <= BYTE_LIMIT
    ensures QueueBounded(Push(p, o, size).(localEnded := ended), size)
  {
    BytesAppend(p.queue, o, size);
    var q := p.queue + [o];
    assert q[..|p.queue|] == p.queue;
    assert WithoutFinal(p.queue) == p.queue;
    assert WithoutFinal(q) == if o.Chunk? then q else p.queue;
  }

  lemma PushVisible(t: Trace, t': Trace, o: Output)
    requires Visible(t') == Visible(t) + [o] && ChunksThenFinal(Visible(t), false)
    ensures ChunksThenFinal(Visible(t'), !o.Chunk?) && Visible(t')[|Visible(t')| - 1] == o
  {
    assert Visible(t')[..|Visible(t)|] == Visible(t);
  }

  lemma PushHanded(t: Trace, o: Output, size: Sizes)
    requires HandedOnce(t) && !t.p.localEnded && !t.p.remoteDone && (o.Chunk? || IsTerminal(o))
    requires o.Chunk? ==> |t.p.queue| < QUEUE_LIMIT && t.p.queuedBytes + size(o) <= BYTE_LIMIT
    ensures HandedOnce(Happen(t, Arrive(o), size))
  {}

  /** What an accepted output that is queued does to the fields the queue is judged by. */
  lemma PushShape(t: Trace, o: Output, size: Sizes)
    requires !t.p.localEnded && !t.p.remoteDone && (o.Chunk? || IsTerminal(o))
    requires o.Chunk? ==> |t.p.queue| < QUEUE_LIMIT && t.p.queuedBytes + size(o) <= BYTE_LIMIT
    ensures var t' := Happen(t, Arrive(o), size);
            var pushed := Push(t.p, o, size);
            && t'.p.queue == pushed.queue && t'.p.queuedBytes == pushed.queuedBytes && t'.p.localEnded == !o.Chunk?
            && t'.taken == t.taken && t'.quit == t.quit
            && t'.queuedTerminals == if o.Chunk? then t.queuedTerminals else t.queuedTerminals + [o]
  {}

  lemma PushConsistent(t: Trace, o: Output, size: Sizes)
    requires Consistent(t, size) && !t.p.localEnded && (o.Chunk? || IsTerminal(o))
    requires o.Chunk? ==> |t.p.queue| < QUEUE_LIMIT && t.p.queuedBytes + size(o) <= BYTE_LIMIT
    ensures Consistent(Happen(t, Arrive(o), size), size)
  {
    var t' := Happen(t, Arrive(o), size);
    PushShape(t, o, size);
    PushHanded(t, o, size);
    PushBounded(t.p, o, size, !o.Chunk?);
    if !t.quit {
      assert Visible(t') == Visible(t) + [o];
      PushVisible(t, t', o);
    }
  }

  /** A chunk beyond the limits cancels the attempt and ends it locally. */
  lemma OverflowConsistent(t: Trace, reason: string, size: Sizes)
    requires Consistent(t, size)
    ensures Consistent(t.(p := Unresolved(Cancel(t.p, reason), reason, size)), size)
  {
    CancelConsistent(t, reason, size);
    UnresolvedConsistent(t.(p := Cancel(t.p, reason)), reason, size);
  }

  lemma LateConsistent(t: Trace, o: Output, size: Sizes)
    requires Consistent(t, size) && !t.p.remoteDone && t.p.localEnded && IsTerminal(o)
    ensures Consistent(Happen(t, Arrive(o), size), size)
  {}

  lemma ChunkConsistent(t: Trace, o: Output, size: Sizes)
    requires Consistent(t, size) && !t.p.remoteDone && !t.p.localEnded && o.Chunk?
    ensures Consistent(Happen(t, Arrive(o), size), size)
  {
    if |t.p.queue| >= QUEUE_LIMIT || t.p.queuedBytes + size(o) > BYTE_LIMIT {
      OverflowConsistent(t, "presentation_queue_limit", size);
    } else {
      PushConsistent(t, o, size);
    }
  }

  lemma ArriveConsistent(t: Trace, o: Output, size: Sizes)
    requires Consistent(t, size)
    ensures Consistent(Happen(t, Arrive(o), size), size)
  {
    if t.p.remoteDone {
      assert Happen(t, Arrive(o), size) == t;
    } else if IsTerminal(o) {
      if t.p.localEnded { LateConsistent(t, o, size); } else { PushConsistent(t, o, size); }
    } else if ResponseOf(o).Some? {
      UnresolvedConsistent(t, "remote_unconfirmed", size);
    } else if t.p.localEnded {
      assert Happen(t, Arrive(o), size) == t;
    } else {
      ChunkConsistent(t, o, size);
    }
  }

  /** Taking the head takes it out of the chunks too, unless it is the final. */
  lemma TakeBounded(p: Pending, size: Sizes)
    requires QueueBounded(p, size) && p.queue != []
    ensures QueueBounded(Shift(p, size), size)
  {
    var q := p.queue;
    if !q[|q| - 1].Chunk? && |q| > 1 {
      assert WithoutFinal(q)[1..] == WithoutFinal(q[1..]);
    }
  }

  lemma TakeKeepsVisible(t: Trace, size: Sizes)
    requires t.p.queue != []
    ensures Visible(Happen(t, Take, size)) == Visible(t)
  {}

  lemma TakeConsistent(t: Trace, size: Sizes)
    requires Consistent(t, size) && t.p.queue != []
    ensures Consistent(Happen(t, Take, size), size)
  {
    TakeBounded(t.p, size);
    TakeKeepsVisible(t, size);
  }

  lemma DispatchConsistent(t: Trace, size: Sizes)
    requires Consistent(t, size)
    ensures Consistent(Happen(t, Dispatch, size), size)
  {}

  lemma TimerConsistent(t: Trace, e: Event, size: Sizes)
    requires Consistent(t, size) && (e.CancelTimer? || e.DeadlineTimer?)
    ensures Consistent(Happen(t, e, size), size)
  {
    if e.CancelTimer? {
      if t.p.cancelTimer.Some? { UnresolvedConsistent(t.(p := t.p.(cancelTimer := None)), t.p.cancelTimer.value, size); }
    } else if t.p.deadlineTimer {
      CancelConsistent(t.(p := t.p.(deadlineTimer := false)), "execution_deadline", size);
    }
  }

  lemma QuitConsistent(t: Trace, size: Sizes)
    requires Consistent(t, size)
    ensures Consistent(Happen(t, Quit, size), size)
  {
    if Retained(t.p) {
      CancelConsistent(t, "cancel_unconfirmed", size);
      UnresolvedConsistent(t.(p := Cancel(t.p, "cancel_unconfirmed")), "iterator_detached", size);
    }
  }

  lemma EventConsistent(t: Trace, e: Event, size: Sizes)
    requires Consistent(t, size)
    ensures Consistent(Happen(t, e, size), size)
  {
    match e {
      case Dispatch => DispatchConsistent(t, size);
      case Arrive(o) => ArriveConsistent(t, o, size);
      case Abort => CancelConsistent(t, "cancel_unconfirmed", size);
      case Stale(reason) => UnresolvedConsistent(t, reason, size);
      case Take => if t.p.queue != [] { TakeConsistent(t, size); }
      case Quit => QuitConsistent(t, size);
      case CancelTimer => TimerConsistent(t, e, size);
      case DeadlineTimer => TimerConsistent(t, e, size);
    }
  }

  /**
   * After every sequence of events: the remote terminal was handed over exactly once if it came and
   * never otherwise; at most one cancel and one unresolved notice went out; the queue's byte count is
   * exact and its chunks are bounded; and a consumer that has not quit sees chunks and then one final,
   * which is the remote terminal whenever that was queued.
   */
  lemma {:induction false} AlwaysConsistent(events: seq<Event>, size: Sizes)
    ensures Consistent(Play(events, size), size)
  {
    if events != [] {
      var n := |events| - 1;
      AlwaysConsistent(events[..n], size);
      EventConsistent(Play(events[..n], size), events[n], size);
    }
  }

  predicate Settles(e: Event) {
    e.Arrive? && IsTerminal(e.output)
  }

  predicate SameFlags(p: Pending, q: Pending) {
    p.remoteDone == q.remoteDone && p.dispatched == q.dispatched
  }

  lemma EndingKeepsFlags(p: Pending, reason: string, size: Sizes)
    ensures SameFlags(Unresolved(p, reason, size), p) && SameFlags(Cancel(p, reason), p)
  {}

  lemma AcceptFlags(p: Pending, o: Output, size: Sizes)
    ensures Accept(p, o, size).dispatched == p.dispatched
    ensures Accept(p, o, size).remoteDone <==> p.remoteDone || IsTerminal(o)
  {
    EndingKeepsFlags(p, "remote_unconfirmed", size);
    EndingKeepsFlags(p, "presentation_queue_limit", size);
    EndingKeepsFlags(Cancel(p, "presentation_queue_limit"), "presentation_queue_limit", size);
  }

  lemma DetachFlags(p: Pending, size: Sizes)
    ensures SameFlags(Detach(p, size), p)
  {
    EndingKeepsFlags(p, "cancel_unconfirmed", size);
    EndingKeepsFlags(Cancel(p, "cancel_unconfirmed"), "iterator_detached", size);
  }

  lemma FlagStep(t: Trace, e: Event, size: Sizes)
    ensures Happen(t, e, size).p.remoteDone <==> t.p.remoteDone || Settles(e)
    ensures Happen(t, e, size).p.dispatched <==> t.p.dispatched || e == Dispatch
  {
    match e {
      case Dispatch =>
      case Arrive(o) => AcceptFlags(t.p, o, size);
      case Abort => EndingKeepsFlags(t.p, "cancel_unconfirmed", size);
      case Stale(reason) => EndingKeepsFlags(t.p, reason, size);
      case Take =>
      case Quit => DetachFlags(t.p, size);
      case CancelTimer =>
        if t.p.cancelTimer.Some? { EndingKeepsFlags(t.p.(cancelTimer := None), t.p.cancelTimer.value, size); }
      case DeadlineTimer => EndingKeepsFlags(t.p.(deadlineTimer := false), "execution_deadline", size);
    }
  }

  predicate AnySettles(events: seq<Event>) {
    exists i :: 0 <= i < |events| && Settles(events[i])
  }

  /** A dispatched attempt is retained exactly until a remote terminal arrives. */
  lemma {:induction false} RetainedUntilTerminal(events: seq<Event>, size: Sizes)
    ensures Play(events, size).p.remoteDone <==> AnySettles(events)
    ensures Play(events, size).p.dispatched <==> Dispatch in events
    ensures Retained(Play(events, size).p) <==> Dispatch in events && !AnySettles(events)
  {
    if events != [] {
      var n := |events| - 1;
      RetainedUntilTerminal(events[..n], size);
      FlagStep(Play(events[..n], size), events[n], size);
      LastSettles(events);
      assert events == events[..n] + [events[n]];
    }
  }

  lemma LastSettles(events: seq<Event>)
    requires events != []
    ensures AnySettles(events) <==> AnySettles(events[..|events| - 1]) || Settles(events[|events| - 1])
  {
    var n := |events| - 1;
    if AnySettles(events[..n]) {
      var i :| 0 <= i < n && Settles(events[..n][i]);
      assert Settles(events[i]);
    }
    if AnySettles(events) && !Settles(events[n]) {
      var i :| 0 <= i <= n && Settles(events[i]);
      assert Settles(events[..n][i]);
    }
  }
}
