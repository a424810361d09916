/** The runner's table of attempts by invocation key (persistentRunner.ts). */
module PersistentRunner {
  import opened Text
  import opened PendingRunner

  type Key = string

  const OWNERSHIP_LIMIT := 128

  /** One call of invoke: its key, its attempt, and whether its generator has finished. */
  datatype Attempt = Attempt(key: Key, p: Pending, left: bool)

  /** `pending` is the runner's map; `attempts` every attempt ever made, by identity. */
  datatype Runner = Runner(pending: map<Key, nat>, attempts: map<nat, Attempt>)

  const IDLE := Runner(map[], map[])

  datatype Step =
    | Invoke(key: Key, attempt: nat)
    | Dispatched(attempt: nat)
    | Frame(key: Key, output: Output)
    | Aborted(attempt: nat)
    | CancelKey(key: Key)
    | WriteFailed(attempt: nat, reason: string)
    | FailAll(reason: string)
    | Pull(attempt: nat)
    | Finish(attempt: nat)
    | TimerFires(attempt: nat, deadline: bool)

  predicate Enabled(r: Runner, step: Step) {
    match step
    case Invoke(key, a) => key !in r.pending && |r.pending| < OWNERSHIP_LIMIT && a !in r.attempts
    case Dispatched(a) => a in r.attempts && !r.attempts[a].p.dispatched && !r.attempts[a].left
    case Aborted(a) => a in r.attempts
    case WriteFailed(a, _) => a in r.attempts
    case Pull(a) => a in r.attempts
    case Finish(a) => a in r.attempts && !r.attempts[a].left
    case TimerFires(a, _) => a in r.attempts
    case Frame(_, _) => true
    case CancelKey(_) => true
    case FailAll(_) => true
  }

  function With(r: Runner, a: nat, p: Pending): Runner
    requires a in r.attempts
  {
    r.(attempts := r.attempts[a := r.attempts[a].(p := p)])
  }

  /** forgetTerminal, only for the attempt the map still names. */
  function Forget(r: Runner, key: Key, a: nat): Runner {
    if key in r.pending && r.pending[key] == a then r.(pending := r.pending - {key}) else r
  }

  /** acceptLine for an invocation output. */
  function Route(r: Runner, key: Key, output: Output, size: Sizes): Runner {
    if key !in r.pending || r.pending[key] !in r.attempts then r
    else
      var a := r.pending[key];
      var p := Accept(r.attempts[a].p, output, size);
      if p.remoteDone then Forget(With(r, a, p), key, a) else With(r, a, p)
  }

  /** invoke's finally block. */
  function Leave(r: Runner, a: nat, size: Sizes): Runner
    requires a in r.attempts
  {
    var p := Detach(r.attempts[a].p, size);
    var left := r.(attempts := r.attempts[a := r.attempts[a].(p := p, left := true)]);
    if !Retained(p) then Forget(left, r.attempts[a].key, a) else left
  }

  function Fired(p: Pending, deadline: bool, size: Sizes): Pending {
    if deadline then (if p.deadlineTimer then Cancel(p.(deadlineTimer := false), "execution_deadline") else p)
    else if p.cancelTimer.Some? then Unresolved(p.(cancelTimer := None), p.cancelTimer.value, size)
    else p
  }

  function Apply(r: Runner, step: Step, size: Sizes): Runner
    requires Enabled(r, step)
  {
    match step
    case Invoke(key, a) => Runner(r.pending[key := a], r.attempts[a := Attempt(key, NEW, false)])
    case Dispatched(a) => With(r, a, Start(r.attempts[a].p))
    case Frame(key, output) => Route(r, key, output, size)
    case Aborted(a) => With(r, a, Cancel(r.attempts[a].p, "cancel_unconfirmed"))
    case CancelKey(key) =>
      if key in r.pending && r.pending[key] in r.attempts
      then With(r, r.pending[key], Cancel(r.attempts[r.pending[key]].p, "cancel_unconfirmed")) else r
    case WriteFailed(a, reason) => With(r, a, Unresolved(r.attempts[a].p, reason, size))
    case FailAll(reason) =>
      r.(attempts := map a | a in r.attempts ::
           if a in r.pending.Values then r.attempts[a].(p := Unresolved(r.attempts[a].p, reason, size)) else r.attempts[a])
    case Pull(a) => With(r, a, Shift(r.attempts[a].p, size))
    case Finish(a) => Leave(r, a, size)
    case TimerFires(a, deadline) => With(r, a, Fired(r.attempts[a].p, deadline, size))
  }

  // ---------------------------------------------------------------- the invariant

  /** An attempt that may still run remotely, or whose caller is still in invoke, owns its key. */
  predicate Owned(r: Runner, a: nat)
    requires a in r.attempts
  {
    var t := r.attempts[a];
    Retained(t.p) || (!t.left && !t.p.remoteDone) ==> t.key in r.pending && r.pending[t.key] == a
  }

  predicate Named(r: Runner, k: Key)
    requires k in r.pending
  {
    r.pending[k] in r.attempts && r.attempts[r.pending[k]].key == k
  }

  predicate Inv(r: Runner) {
    && (forall a {:trigger Owned(r, a)} :: a in r.attempts ==> Owned(r, a))
    && (forall k {:trigger Named(r, k)} :: k in r.pending ==> Named(r, k))
    && |r.pending| <= OWNERSHIP_LIMIT
  }

  lemma WithInv(r: Runner, a: nat, p: Pending)
    requires Inv(r) && a in r.attempts && p.remoteDone == r.attempts[a].p.remoteDone
    requires p.dispatched == r.attempts[a].p.dispatched || (!r.attempts[a].left && p.dispatched)
    ensures Inv(With(r, a, p))
  {
    var r' := With(r, a, p);
    forall b | b in r'.attempts ensures Owned(r', b) { assert Owned(r, b); }
    forall k | k in r'.pending ensures Named(r', k) { assert Named(r, k); }
  }

  lemma ForgetShrinks(pending: map<Key, nat>, key: Key)
    ensures |pending - {key}| <= |pending|
  {
    assert (pending - {key}).Keys == pending.Keys - {key};
    assert |(pending - {key}).Keys| == |pending - {key}| && |pending.Keys| == |pending|;
  }

  lemma TakesOnePlace(pending: map<Key, nat>, key: Key, a: nat)
    ensures |pending[key := a]| <= |pending| + 1
  {
    assert pending[key := a].Keys == pending.Keys + {key};
    assert |pending[key := a].Keys| == |pending[key := a]| && |pending.Keys| == |pending|;
  }

  lemma ForgetNamed(r: Runner, key: Key, a: nat, t: Attempt, k: Key)
    requires a in r.attempts && r.attempts[a].key == t.key
    requires k in r.pending && Named(r, k) && k in Forget(r.(attempts := r.attempts[a := t]), key, a).pending
    ensures Named(Forget(r.(attempts := r.attempts[a := t]), key, a), k)
  {}

  lemma ForgetOwned(r: Runner, key: Key, a: nat, t: Attempt, b: nat)
    requires Inv(r) && a in r.attempts && r.attempts[a].key == key && t.key == key
    requires !Retained(t.p) && (t.left || t.p.remoteDone) && b in r.attempts
    ensures Owned(Forget(r.(attempts := r.attempts[a := t]), key, a), b)
  {
    if b != a { assert Owned(r, b); }
  }

  lemma ForgetInv(r: Runner, key: Key, a: nat, t: Attempt)
    requires Inv(r) && a in r.attempts && r.attempts[a].key == key && t.key == key
    requires !Retained(t.p) && (t.left || t.p.remoteDone)
    ensures Inv(Forget(r.(attempts := r.attempts[a := t]), key, a))
  {
    var r' := Forget(r.(attempts := r.attempts[a := t]), key, a);
    forall b | b in r'.attempts ensures Owned(r', b) { ForgetOwned(r, key, a, t, b); }
    forall k | k in r'.pending ensures Named(r', k) {
      assert Named(r, k);
      ForgetNamed(r, key, a, t, k);
    }
    ForgetShrinks(r.pending, key);
  }

  lemma RouteInv(r: Runner, key: Key, output: Output, size: Sizes)
    requires Inv(r)
    ensures Inv(Route(r, key, output, size))
  {
    if key in r.pending {
      assert Named(r, key);
      var a := r.pending[key];
      var p := Accept(r.attempts[a].p, output, size);
      AcceptFlags(r.attempts[a].p, output, size);
      if p.remoteDone {
        ForgetInv(r, key, a, r.attempts[a].(p := p));
      } else {
        WithInv(r, a, p);
      }
    }
  }

  lemma LeaveInv(r: Runner, a: nat, size: Sizes)
    requires Inv(r) && a in r.attempts
    ensures Inv(Leave(r, a, size))
  {
    var t := r.attempts[a];
    var p := Detach(t.p, size);
    DetachFlags(t.p, size);
    if Retained(p) {
      var r' := Leave(r, a, size);
      forall b | b in r'.attempts ensures Owned(r', b) { assert Owned(r, b); }
      forall k | k in r'.pending ensures Named(r', k) { assert Named(r, k); }
    } else {
      ForgetInv(r, t.key, a, t.(p := p, left := true));
    }
  }

  lemma FailAllInv(r: Runner, reason: string, size: Sizes)
    requires Inv(r)
    ensures Inv(Apply(r, FailAll(reason), size))
  {
    var r' := Apply(r, FailAll(reason), size);
    forall a | a in r'.attempts ensures Owned(r', a) {
      EndingKeepsFlags(r.attempts[a].p, reason, size);
      assert Owned(r, a);
    }
    forall k | k in r'.pending ensures Named(r', k) { assert Named(r, k); }
  }

  lemma InvokeInv(r: Runner, key: Key, a: nat, size: Sizes)
    requires Inv(r) && Enabled(r, Invoke(key, a))
    ensures Inv(Apply(r, Invoke(key, a), size))
  {
    var r' := Apply(r, Invoke(key, a), size);
    forall b | b in r'.attempts ensures Owned(r', b) {
      if b != a { assert Owned(r, b); }
    }
    forall k | k in r'.pending ensures Named(r', k) {
      if k != key { assert Named(r, k); }
    }
    TakesOnePlace(r.pending, key, a);
  }

  lemma StepInv(r: Runner, step: Step, size: Sizes)
    requires Inv(r) && Enabled(r, step)
    ensures Inv(Apply(r, step, size))
  {
    match step {
      case Invoke(key, a) => InvokeInv(r, key, a, size);
      case Dispatched(a) => WithInv(r, a, Start(r.attempts[a].p));
      case Frame(key, output) => RouteInv(r, key, output, size);
      case Aborted(a) => WithInv(r, a, Cancel(r.attempts[a].p, "cancel_unconfirmed"));
      case CancelKey(key) =>
        if key in r.pending { assert Named(r, key); WithInv(r, r.pending[key], Cancel(r.attempts[r.pending[key]].p, "cancel_unconfirmed")); }
      case WriteFailed(a, reason) =>
        EndingKeepsFlags(r.attempts[a].p, reason, size);
        WithInv(r, a, Unresolved(r.attempts[a].p, reason, size));
      case FailAll(reason) => FailAllInv(r, reason, size);
      case Pull(a) => WithInv(r, a, Shift(r.attempts[a].p, size));
      case Finish(a) => LeaveInv(r, a, size);
      case TimerFires(a, deadline) => WithInv(r, a, Fired(r.attempts[a].p, deadline, size));
    }
  }

  ghost predicate NextAt(run: seq<Runner>, size: Sizes, i: nat)
    requires i + 1 < |run|
  {
    exists step :: Enabled(run[i], step) && run[i + 1] == Apply(run[i], step, size)
  }

  ghost predicate IsRun(run: seq<Runner>, size: Sizes) {
    |run| > 0 && run[0] == IDLE && forall i :: 0 <= i < |run| - 1 ==> NextAt(run, size, i)
  }

  lemma {:induction false} RunInv(run: seq<Runner>, size: Sizes, i: nat)
    requires IsRun(run, size) && i < |run|
    ensures Inv(run[i])
  {
    if i > 0 {
      RunInv(run, size, i - 1);
      assert NextAt(run, size, i - 1);
      var step :| Enabled(run[i - 1], step) && run[i] == Apply(run[i - 1], step, size);
      StepInv(run[i - 1], step, size);
    }
  }

  /**
   * In every run, an attempt that was dispatched and has seen no remote terminal keeps its key: the
   * map still names it and no other invocation can take the key, whatever its caller, the transport
   * or a timer did meanwhile.
   */
  lemma KeyOwnedUntilTerminal(run: seq<Runner>, size: Sizes, i: nat, a: nat, b: nat)
    requires IsRun(run, size) && i < |run| && a in run[i].attempts && Retained(run[i].attempts[a].p)
    ensures run[i].attempts[a].key in run[i].pending && run[i].pending[run[i].attempts[a].key] == a
    ensures !Enabled(run[i], Invoke(run[i].attempts[a].key, b))
    ensures b in run[i].attempts && b != a && run[i].attempts[b].key == run[i].attempts[a].key ==> !Retained(run[i].attempts[b].p)
  {
    RunInv(run, size, i);
    assert Owned(run[i], a);
    if b in run[i].attempts { assert Owned(run[i], b); }
  }

  /** Only a frame with a remote terminal, routed to the attempt, ends its retention. */
  lemma OnlyTerminalReleases(r: Runner, step: Step, size: Sizes, a: nat)
    requires Inv(r) && Enabled(r, step) && a in r.attempts && Retained(r.attempts[a].p)
    ensures a in Apply(r, step, size).attempts
    ensures Retained(Apply(r, step, size).attempts[a].p) <==>
            !(step.Frame? && step.key == r.attempts[a].key && IsTerminal(step.output))
  {
    assert Owned(r, a);
    match step {
      case Frame(key, output) => if key in r.pending { assert Named(r, key); AcceptFlags(r.attempts[r.pending[key]].p, output, size); }
      case FailAll(reason) => EndingKeepsFlags(r.attempts[a].p, reason, size);
      case WriteFailed(b, reason) => EndingKeepsFlags(r.attempts[b].p, reason, size);
      case Finish(b) => DetachFlags(r.attempts[b].p, size);
      case Invoke(_, _) =>
      case Dispatched(_) =>
      case Aborted(_) =>
      case CancelKey(key) => if key in r.pending { assert Named(r, key); }
      case Pull(_) =>
      case TimerFires(_, _) =>
    }
  }
}
