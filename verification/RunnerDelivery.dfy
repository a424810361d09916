/** Which outputs of an attempt reach its consumer, told from the events alone (pendingRunnerInvocation.ts). */
module RunnerDelivery {
  import opened Text
  import opened PendingRunner

  /** The plain chunks that arrived, in order. */
  function ChunksIn(events: seq<Event>): seq<Output> {
    if events == [] then []
    else
      var earlier := ChunksIn(events[..|events| - 1]);
      var e := events[|events| - 1];
      if e.Arrive? && e.output.Chunk? then earlier + [e.output] else earlier
  }

  predicate Ended(events: seq<Event>, size: Sizes) {
    Play(events, size).p.localEnded
  }

  /** A chunk arriving now finds 256 chunks waiting, or would take the waiting bytes beyond 8 MiB. */
  predicate Overflows(waiting: seq<Output>, o: Output, size: Sizes) {
    |waiting| >= 256 || Bytes(waiting, size) + size(o) > 8_388_608
  }

  /** An output that says the remote side is settled. */
  predicate SaysSettled(o: Output) {
    !o.Chunk? && o.response.Known?
  }

  // ---------------------------------------------------------------- one event

  /** What ends an attempt that has not ended: any response, a chunk too many, staleness, an unanswered cancel, or leaving it running. */
  predicate Ends(t: Trace, e: Event, size: Sizes) {
    match e
    case Arrive(o) => !o.Chunk? || Overflows(t.p.queue, o, size)
    case Stale(_) => true
    case CancelTimer => t.p.cancels == 1
    case Quit => t.p.dispatched
    case _ => false
  }

  /** While an attempt has not ended, a sent cancel has its timer running. */
  predicate TimerRuns(p: Pending) {
    !p.localEnded ==> (p.cancelTimer.Some? <==> p.cancels == 1)
  }

  lemma TimerRunsOn(t: Trace, e: Event, size: Sizes)
    requires Consistent(t, size) && TimerRuns(t.p)
    ensures TimerRuns(Happen(t, e, size).p)
  {
    match e {
      case Arrive(o) => if t.p.localEnded || !o.Chunk? || Overflows(t.p.queue, o, size) { ResponseEnds(t, o, size); }
      case _ =>
    }
  }

  lemma ResponseEnds(t: Trace, o: Output, size: Sizes)
    requires Consistent(t, size) && (t.p.localEnded || !o.Chunk? || Overflows(t.p.queue, o, size))
    ensures Happen(t, Arrive(o), size).p.localEnded
  {}

  /** Exactly these events end it. */
  lemma EndingDecides(t: Trace, e: Event, size: Sizes)
    requires Consistent(t, size) && TimerRuns(t.p) && !t.p.localEnded
    ensures Happen(t, e, size).p.localEnded <==> Ends(t, e, size)
  {
    match e {
      case Arrive(o) => if !o.Chunk? || Overflows(t.p.queue, o, size) { ResponseEnds(t, o, size); }
      case _ =>
    }
  }

  /** What an event that does not end the attempt does to what its consumer sees. */
  lemma FlowStep(t: Trace, e: Event, size: Sizes)
    requires Consistent(t, size) && !t.p.localEnded && !Happen(t, e, size).p.localEnded && e != Quit
    ensures Visible(Happen(t, e, size)) == Visible(t) + if e.Arrive? && e.output.Chunk? then [e.output] else []
  {}

  /** What the event that ends it does. */
  lemma EndStep(t: Trace, e: Event, size: Sizes)
    requires Consistent(t, size) && !t.p.localEnded && Happen(t, e, size).p.localEnded && e != Quit
    ensures var t' := Happen(t, e, size);
            if e.Arrive? && SaysSettled(e.output) then Visible(t') == Visible(t) + [e.output] && t'.taken == t.taken
            else exists reason :: Visible(t') == t.taken + [Final(RemoteUnknown(reason))]
  {
    match e {
      case Arrive(o) =>
        if SaysSettled(o) {
        } else if o.Chunk? {
          assert Visible(Happen(t, e, size)) == t.taken + [Final(RemoteUnknown("presentation_queue_limit"))];
        } else {
          assert Visible(Happen(t, e, size)) == t.taken + [Final(RemoteUnknown("remote_unconfirmed"))];
        }
      case Stale(reason) => assert Visible(Happen(t, e, size)) == t.taken + [Final(RemoteUnknown(reason))];
      case CancelTimer => assert Visible(Happen(t, e, size)) == t.taken + [Final(RemoteUnknown(t.p.cancelTimer.value))];
      case _ =>
    }
  }

  lemma ArriveAfterEnd(p: Pending, o: Output, size: Sizes)
    requires p.localEnded
    ensures Accept(p, o, size).localEnded && Accept(p, o, size).queue == p.queue
  {}

  /** After the end nothing more is shown and nothing shown is taken back. */
  lemma AfterEnd(t: Trace, e: Event, size: Sizes)
    requires t.p.localEnded && e != Quit
    ensures Happen(t, e, size).p.localEnded && Visible(Happen(t, e, size)) == Visible(t)
  {
    match e {
      case Arrive(o) => ArriveAfterEnd(t.p, o, size);
      case Take => if t.p.queue != [] { TakeKeepsVisible(t, size); }
      case _ => QuietAfterEnd(t, e, size);
    }
  }

  lemma QuietAfterEnd(t: Trace, e: Event, size: Sizes)
    requires t.p.localEnded && !e.Arrive? && !e.Take? && !e.Quit?
    ensures Happen(t, e, size).p.localEnded && Happen(t, e, size).p.queue == t.p.queue && Happen(t, e, size).taken == t.taken
  {}

  // ---------------------------------------------------------------- every sequence of events

  lemma {:induction false} TimersRun(events: seq<Event>, size: Sizes)
    ensures TimerRuns(Play(events, size).p)
  {
    if events != [] {
      TimersRun(events[..|events| - 1], size);
      AlwaysConsistent(events[..|events| - 1], size);
      TimerRunsOn(Play(events[..|events| - 1], size), events[|events| - 1], size);
    }
  }

  lemma {:induction false} QuitIsQuit(events: seq<Event>, size: Sizes)
    ensures Play(events, size).quit <==> Quit in events
  {
    if events != [] {
      QuitIsQuit(events[..|events| - 1], size);
      assert events == events[..|events| - 1] + [events[|events| - 1]];
    }
  }

  lemma PlayOne(events: seq<Event>, size: Sizes, k: nat)
    requires k < |events|
    ensures Play(events[..k + 1], size) == Happen(Play(events[..k], size), events[k], size)
  {
    assert events[..k + 1][..k] == events[..k];
  }

  lemma {:induction false} EndedStaysUntil(events: seq<Event>, size: Sizes, k: nat, m: nat)
    requires k <= m <= |events| && Ended(events[..k], size) && Quit !in events
    ensures Ended(events[..m], size) && Visible(Play(events[..m], size)) == Visible(Play(events[..k], size))
  {
    if k < m {
      EndedStaysUntil(events, size, k, m - 1);
      PlayOne(events, size, m - 1);
      assert events[m - 1] in events;
      AfterEnd(Play(events[..m - 1], size), events[m - 1], size);
    }
  }

  lemma EndedStays(events: seq<Event>, size: Sizes, k: nat)
    requires k <= |events| && Ended(events[..k], size) && Quit !in events
    ensures Ended(events, size) && Visible(Play(events, size)) == Visible(Play(events[..k], size))
  {
    EndedStaysUntil(events, size, k, |events|);
    assert events[..|events|] == events;
  }

  /**
   * While the attempt has not ended and its consumer has not quit, what the consumer took and what waits
   * for it are together exactly the chunks that arrived, in order.
   */
  lemma {:induction false} EveryChunkArrives(events: seq<Event>, size: Sizes)
    requires Quit !in events && !Ended(events, size)
    ensures Play(events, size).taken + Play(events, size).p.queue == ChunksIn(events)
  {
    if events != [] {
      var n := |events| - 1;
      if Ended(events[..n], size) { EndedStays(events, size, n); }
      EveryChunkArrives(events[..n], size);
      AlwaysConsistent(events[..n], size);
      FlowStep(Play(events[..n], size), events[n], size);
    }
  }

  /** Event k is the one that ends the attempt. */
  predicate EndsAt(events: seq<Event>, size: Sizes, k: nat) {
    k < |events| && !Ended(events[..k], size) && Ended(events[..k + 1], size)
  }

  /**
   * However it goes on after its end, a consumer that has not quit sees this. If a remote terminal ended the
   * attempt: all chunks that had arrived, then that terminal. After any other end: the chunks it had
   * taken, which are the first of those that arrived, then one unconfirmed final.
   */
  lemma WhatTheConsumerSees(events: seq<Event>, size: Sizes, k: nat)
    requires Quit !in events && EndsAt(events, size, k)
    ensures var before := Play(events[..k], size);
            && before.taken <= ChunksIn(events[..k])
            && if events[k].Arrive? && SaysSettled(events[k].output)
               then Visible(Play(events, size)) == ChunksIn(events[..k]) + [events[k].output]
               else exists reason :: Visible(Play(events, size)) == before.taken + [Final(RemoteUnknown(reason))]
  {
    var before := Play(events[..k], size);
    EveryChunkArrives(events[..k], size);
    AlwaysConsistent(events[..k], size);
    PlayOne(events, size, k);
    assert events[k] in events;
    EndStep(before, events[k], size);
    EndedStays(events, size, k + 1);
    assert before.taken <= Visible(before);
  }

  /**
   * Exactly which event ends an attempt that has not ended, from the events before it: any response, a
   * chunk that finds 256 untaken chunks or would take the untaken bytes beyond 8 MiB, a stale
   * transport, or the timer of a cancel that was sent.
   */
  lemma EndDecides(events: seq<Event>, size: Sizes, k: nat)
    requires k < |events| && Quit !in events && !Ended(events[..k], size)
    ensures var t := Play(events[..k], size);
            |t.taken| <= |ChunksIn(events[..k])| && t.p.queue == ChunksIn(events[..k])[|t.taken|..]
    ensures EndsAt(events, size, k) <==>
            match events[k]
            case Arrive(o) => !o.Chunk? || Overflows(ChunksIn(events[..k])[|Play(events[..k], size).taken|..], o, size)
            case Stale(_) => true
            case CancelTimer => Play(events[..k], size).p.cancels == 1
            case _ => false
  {
    var t := Play(events[..k], size);
    EveryChunkArrives(events[..k], size);
    AlwaysConsistent(events[..k], size);
    TimersRun(events[..k], size);
    PlayOne(events, size, k);
    assert Visible(t)[|t.taken|..] == t.p.queue;
    assert events[k] in events;
    EndingDecides(t, events[k], size);
  }

  // ---------------------------------------------------------------- cancelling, waiting, leaving

  lemma ArrivalCancels(t: Trace, o: Output, size: Sizes)
    requires Consistent(t, size)
    ensures Happen(t, Arrive(o), size).p.cancels ==
            t.p.cancels + if t.p.dispatched && !t.p.remoteDone && t.p.cancels == 0 && !t.p.localEnded && o.Chunk?
                             && Overflows(t.p.queue, o, size) then 1 else 0
  {}

  /** A cancel frame goes out exactly once, on the first abort, deadline, overflow or departure of a running attempt. */
  lemma CancelDecides(t: Trace, e: Event, size: Sizes)
    requires Consistent(t, size)
    ensures Happen(t, e, size).p.cancels == t.p.cancels || Happen(t, e, size).p.cancels == t.p.cancels + 1
    ensures Happen(t, e, size).p.cancels == t.p.cancels + 1 <==>
            && t.p.dispatched && !t.p.remoteDone && t.p.cancels == 0
            && match e
               case Abort => true
               case Quit => true
               case DeadlineTimer => t.p.deadlineTimer
               case Arrive(o) => !t.p.localEnded && o.Chunk? && Overflows(t.p.queue, o, size)
               case _ => false
  {
    match e {
      case Arrive(o) => ArrivalCancels(t, o, size);
      case _ => OtherCancels(t, e, size);
    }
  }

  lemma OtherCancels(t: Trace, e: Event, size: Sizes)
    requires HandedOnce(t) && !e.Arrive?
    ensures Happen(t, e, size).p.cancels ==
            t.p.cancels + if t.p.dispatched && !t.p.remoteDone && t.p.cancels == 0
                             && (e.Abort? || e.Quit? || (e.DeadlineTimer? && t.p.deadlineTimer)) then 1 else 0
  {}

  lemma ArrivalStopsDeadline(t: Trace, o: Output, size: Sizes)
    requires HandedOnce(t)
    ensures Happen(t, Arrive(o), size).p.deadlineTimer <==>
            t.p.deadlineTimer && !(SaysSettled(o) && !t.p.remoteDone)
            && (t.p.localEnded || t.p.remoteDone || !Happen(t, Arrive(o), size).p.localEnded)
  {}

  /** The deadline runs from dispatch until it fires or the attempt ends. */
  lemma DeadlineDecides(t: Trace, e: Event, size: Sizes)
    requires HandedOnce(t)
    ensures Happen(t, e, size).p.deadlineTimer <==>
            e == Dispatch || (t.p.deadlineTimer && e != DeadlineTimer && !(e.Arrive? && SaysSettled(e.output) && !t.p.remoteDone)
                              && (t.p.localEnded || t.p.remoteDone || !Happen(t, e, size).p.localEnded))
  {
    match e {
      case Arrive(o) => ArrivalStopsDeadline(t, o, size);
      case _ =>
    }
  }

  /** A remote terminal that comes after the end goes to the late hook, and nothing else does. */
  lemma LateDecides(t: Trace, e: Event, size: Sizes)
    requires Consistent(t, size)
    ensures Happen(t, e, size).p.late ==
            if e.Arrive? && SaysSettled(e.output) && t.p.localEnded && !t.p.remoteDone then t.p.late + [e.output] else t.p.late
  {}

  /** What the consumer's pull answers: the next untaken chunk, the wait for more, or the end. */
  lemma PullDecides(events: seq<Event>, size: Sizes)
    requires Quit !in events && !Ended(events, size)
    ensures var t := Play(events, size);
            match PollOf(t.p)
            case Value(o) => |t.taken| < |ChunksIn(events)| && o == ChunksIn(events)[|t.taken|]
            case Waiting => t.taken == ChunksIn(events) && Dispatch in events
            case Done => t.taken == ChunksIn(events) && Dispatch !in events
  {
    EveryChunkArrives(events, size);
    RetainedUntilTerminal(events, size);
    var t := Play(events, size);
    assert t.p.queue != [] ==> (t.taken + t.p.queue)[|t.taken|] == t.p.queue[0];
  }

  /** And taking hands over exactly what the pull answered. */
  lemma TakeDecides(t: Trace, size: Sizes)
    ensures Happen(t, Take, size).taken == (match PollOf(t.p) case Value(o) => t.taken + [o] case _ => t.taken)
    ensures t.taken + t.p.queue == Happen(t, Take, size).taken + Happen(t, Take, size).p.queue
  {}

  /** A consumer that leaves finds nothing queued, and a running attempt has been cancelled and given up locally. */
  lemma LeavingDecides(t: Trace, size: Sizes)
    requires Consistent(t, size)
    ensures var t' := Happen(t, Quit, size);
            && t'.p.queue == [] && t'.p.queuedBytes == 0 && t'.taken == t.taken
            && (t.p.dispatched && !t.p.remoteDone ==> t'.p.localEnded && t'.p.cancels == 1 && t'.p.remoteDone == t.p.remoteDone)
            && (!(t.p.dispatched && !t.p.remoteDone) ==> t'.p == t.p.(queue := [], queuedBytes := 0))
  {}
}
