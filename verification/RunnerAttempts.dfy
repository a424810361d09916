/** Every attempt of the runner's table is one attempt of its own, fed by its own key (persistentRunner.ts). */
module RunnerAttempts {
  import opened Text
  import opened PendingRunner
  import opened PersistentRunner

  /** The attempt still has a claim on its key: it may run remotely, or its caller is still inside invoke waiting for an end. */
  predicate Wants(r: Runner, a: nat) {
    && a in r.attempts && !r.attempts[a].p.remoteDone
    && (r.attempts[a].p.dispatched || !r.attempts[a].left)
  }

  /** The table names no attempt that no longer wants its key. */
  predicate Tidy(r: Runner) {
    forall k :: k in r.pending ==> Wants(r, r.pending[k])
  }

  lemma FrameTidy(r: Runner, key: Key, output: Output, size: Sizes)
    requires Inv(r) && Tidy(r)
    ensures Tidy(Route(r, key, output, size))
  {
    if key in r.pending {
      assert Named(r, key);
      var a := r.pending[key];
      AcceptFlags(r.attempts[a].p, output, size);
      var r' := Route(r, key, output, size);
      forall k | k in r'.pending ensures Wants(r', r'.pending[k]) { assert Named(r, k); }
    }
  }

  lemma LeaveTidy(r: Runner, a: nat, size: Sizes)
    requires Inv(r) && Tidy(r) && a in r.attempts
    ensures Tidy(Leave(r, a, size))
  {
    DetachFlags(r.attempts[a].p, size);
    var r' := Leave(r, a, size);
    forall k | k in r'.pending ensures Wants(r', r'.pending[k]) { assert Named(r, k); }
  }

  lemma OtherTidy(r: Runner, step: Step, size: Sizes)
    requires Inv(r) && Tidy(r) && Enabled(r, step) && !step.Frame? && !step.Finish?
    ensures Tidy(Apply(r, step, size))
  {
    var r' := Apply(r, step, size);
    match step {
      case WriteFailed(a, reason) => EndingKeepsFlags(r.attempts[a].p, reason, size);
      case FailAll(reason) =>
        forall k | k in r'.pending ensures Wants(r', r'.pending[k]) {
          assert Named(r, k);
          EndingKeepsFlags(r.attempts[r.pending[k]].p, reason, size);
        }
      case TimerFires(a, _) =>
        var p := r.attempts[a].p;
        EndingKeepsFlags(p.(deadlineTimer := false), "execution_deadline", size);
        if p.cancelTimer.Some? { EndingKeepsFlags(p.(cancelTimer := None), p.cancelTimer.value, size); }
      case _ =>
    }
  }

  lemma {:induction false} RunTidy(run: seq<Runner>, size: Sizes, i: nat)
    requires IsRun(run, size) && i < |run|
    ensures Tidy(run[i])
  {
    if i > 0 {
      RunTidy(run, size, i - 1);
      RunInv(run, size, i - 1);
      assert NextAt(run, size, i - 1);
      var step :| Enabled(run[i - 1], step) && run[i] == Apply(run[i - 1], step, size);
      match step {
        case Frame(key, output) => FrameTidy(run[i - 1], key, output, size);
        case Finish(a) => LeaveTidy(run[i - 1], a, size);
        case _ => OtherTidy(run[i - 1], step, size);
      }
    }
  }

  /** In every run the table names an attempt under its key exactly as long as the attempt wants it; then the key is free again. */
  lemma KeyHeldIffWanted(run: seq<Runner>, size: Sizes, i: nat, k: Key, a: nat)
    requires IsRun(run, size) && i < |run|
    ensures k in run[i].pending && run[i].pending[k] == a <==> Wants(run[i], a) && run[i].attempts[a].key == k
    ensures k in run[i].pending ==> Wants(run[i], run[i].pending[k])
  {
    RunInv(run, size, i);
    RunTidy(run, size, i);
    if k in run[i].pending { assert Named(run[i], k); }
    if a in run[i].attempts { assert Owned(run[i], a); }
  }

  /** A new invocation gets the key exactly when no attempt wants it and fewer than 128 keys are taken. */
  lemma InvokeDecides(run: seq<Runner>, size: Sizes, i: nat, k: Key, a: nat)
    requires IsRun(run, size) && i < |run|
    ensures Enabled(run[i], Invoke(k, a)) <==>
            && a !in run[i].attempts && |run[i].pending| < 128
            && forall b :: b in run[i].attempts && run[i].attempts[b].key == k ==> !Wants(run[i], b)
  {
    if k in run[i].pending { KeyHeldIffWanted(run, size, i, k, run[i].pending[k]); }
    forall b | b in run[i].attempts && run[i].attempts[b].key == k && Wants(run[i], b) ensures k in run[i].pending {
      KeyHeldIffWanted(run, size, i, k, b);
    }
  }

  // ---------------------------------------------------------------- one attempt

  /** What a step of the runner is for attempt a: nothing, or one event of its own. */
  function OwnEvent(r: Runner, step: Step, a: nat): Option<Event> {
    match step
    case Dispatched(b) => if a == b then Some(Dispatch) else None
    case Frame(key, output) => if Wants(r, a) && r.attempts[a].key == key then Some(Arrive(output)) else None
    case Aborted(b) => if a == b then Some(Abort) else None
    case CancelKey(key) => if Wants(r, a) && r.attempts[a].key == key then Some(Abort) else None
    case WriteFailed(b, reason) => if a == b then Some(Stale(reason)) else None
    case FailAll(reason) => if Wants(r, a) then Some(Stale(reason)) else None
    case Pull(b) => if a == b then Some(Take) else None
    case Finish(b) => if a == b then Some(Quit) else None
    case TimerFires(b, deadline) => if a != b then None else if deadline then Some(DeadlineTimer) else Some(CancelTimer)
    case Invoke(_, _) => None
  }

  /** Where one event leads an attempt. */
  function Step1(p: Pending, own: Option<Event>, size: Sizes): Pending {
    if own.None? then p else Happen(BEGIN.(p := p), own.value, size).p
  }

  lemma NamedIffWanted(r: Runner, key: Key, a: nat)
    requires Inv(r) && Tidy(r)
    ensures key in r.pending && r.pending[key] == a <==> Wants(r, a) && r.attempts[a].key == key
  {
    if key in r.pending { assert Named(r, key); }
    if a in r.attempts { assert Owned(r, a); }
  }

  lemma FrameIsOwn(r: Runner, key: Key, output: Output, size: Sizes, a: nat)
    requires Inv(r) && Tidy(r) && a in r.attempts
    ensures var r' := Route(r, key, output, size);
            a in r'.attempts && r'.attempts[a].key == r.attempts[a].key
            && r'.attempts[a].p == Step1(r.attempts[a].p, OwnEvent(r, Frame(key, output), a), size)
  {
    NamedIffWanted(r, key, a);
    if key in r.pending { assert Named(r, key); }
  }

  lemma CancelIsOwn(r: Runner, key: Key, size: Sizes, a: nat)
    requires Inv(r) && Tidy(r) && a in r.attempts
    ensures var r' := Apply(r, CancelKey(key), size);
            a in r'.attempts && r'.attempts[a].key == r.attempts[a].key
            && r'.attempts[a].p == Step1(r.attempts[a].p, OwnEvent(r, CancelKey(key), a), size)
  {
    NamedIffWanted(r, key, a);
    if key in r.pending { assert Named(r, key); }
  }

  lemma FailAllIsOwn(r: Runner, reason: string, size: Sizes, a: nat)
    requires Inv(r) && Tidy(r) && a in r.attempts
    ensures var r' := Apply(r, FailAll(reason), size);
            a in r'.attempts && r'.attempts[a].key == r.attempts[a].key
            && r'.attempts[a].p == Step1(r.attempts[a].p, OwnEvent(r, FailAll(reason), a), size)
  {
    NamedIffWanted(r, r.attempts[a].key, a);
    if a in r.pending.Values {
      var k :| k in r.pending && r.pending[k] == a;
      assert Wants(r, r.pending[k]);
    }
  }

  /** The attempt takes part in a step exactly by its own event. */
  lemma StepIsOwnEvent(r: Runner, step: Step, size: Sizes, a: nat)
    requires Inv(r) && Tidy(r) && Enabled(r, step) && a in r.attempts
    ensures var r' := Apply(r, step, size);
            a in r'.attempts && r'.attempts[a].key == r.attempts[a].key
            && r'.attempts[a].p == Step1(r.attempts[a].p, OwnEvent(r, step, a), size)
  {
    match step {
      case Frame(key, output) => FrameIsOwn(r, key, output, size, a);
      case CancelKey(key) => CancelIsOwn(r, key, size, a);
      case FailAll(reason) => FailAllIsOwn(r, reason, size, a);
      case _ =>
    }
  }

  /** The steps that make up the run. */
  ghost predicate StepsOf(run: seq<Runner>, steps: seq<Step>, size: Sizes) {
    |run| == |steps| + 1 && run[0] == IDLE && forall i :: 0 <= i < |steps| ==> StepAt(run, steps, size, i)
  }

  predicate StepAt(run: seq<Runner>, steps: seq<Step>, size: Sizes, i: nat)
    requires i < |steps| && |run| == |steps| + 1
  {
    Enabled(run[i], steps[i]) && run[i + 1] == Apply(run[i], steps[i], size)
  }

  /** The events that the first i steps of the run were for attempt a. */
  function OwnEvents(run: seq<Runner>, steps: seq<Step>, i: nat, a: nat): seq<Event>
    requires i <= |steps| && |run| == |steps| + 1
  {
    if i == 0 || a !in run[i - 1].attempts then []
    else OwnEvents(run, steps, i - 1, a) +
         if OwnEvent(run[i - 1], steps[i - 1], a).Some? then [OwnEvent(run[i - 1], steps[i - 1], a).value] else []
  }

  lemma {:induction false} StepsAreRun(run: seq<Runner>, steps: seq<Step>, size: Sizes)
    requires StepsOf(run, steps, size)
    ensures IsRun(run, size)
  {
    forall i | 0 <= i < |run| - 1 ensures NextAt(run, size, i) { assert StepAt(run, steps, size, i); }
  }

  /**
   * In every run each attempt in the table is where its own events, and nothing else, have brought a new
   * attempt: the frames of its key while it wants that key, its own caller, timers and transport. So
   * everything shown of one attempt holds of each of them, however the others interleave.
   */
  lemma {:induction false} AttemptsPlay(run: seq<Runner>, steps: seq<Step>, size: Sizes, i: nat, a: nat)
    requires StepsOf(run, steps, size) && i < |run| && a in run[i].attempts
    ensures run[i].attempts[a].p == Play(OwnEvents(run, steps, i, a), size).p
  {
    assert i > 0;
    assert StepAt(run, steps, size, i - 1);
    if a !in run[i - 1].attempts {
      NewAttempt(run[i - 1], steps[i - 1], size, a);
    } else {
      StepsAreRun(run, steps, size);
      RunInv(run, size, i - 1);
      RunTidy(run, size, i - 1);
      AttemptsPlay(run, steps, size, i - 1, a);
      StepIsOwnEvent(run[i - 1], steps[i - 1], size, a);
      PlayNext(OwnEvents(run, steps, i - 1, a), OwnEvent(run[i - 1], steps[i - 1], a), size);
    }
  }

  lemma PlayNext(events: seq<Event>, own: Option<Event>, size: Sizes)
    ensures Play(events + (if own.Some? then [own.value] else []), size).p == Step1(Play(events, size).p, own, size)
  {
    if own.Some? {
      assert (events + [own.value])[..|events|] == events;
      OnlyThePending(Play(events, size), own.value, size);
    } else {
      assert events + [] == events;
    }
  }

  /** What an event does to the attempt does not depend on what its consumer has seen. */
  lemma OnlyThePending(t: Trace, e: Event, size: Sizes)
    ensures Happen(t, e, size).p == Happen(BEGIN.(p := t.p), e, size).p
  {}

  lemma NewAttempt(r: Runner, step: Step, size: Sizes, a: nat)
    requires Enabled(r, step) && a !in r.attempts && a in Apply(r, step, size).attempts
    ensures step.Invoke? && Apply(r, step, size).attempts[a].p == NEW
  {}
}
