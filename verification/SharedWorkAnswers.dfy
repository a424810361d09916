/** What each caller of the singleflight is told, and what stands behind a result (ownedSharedWork.ts). */
module SharedWorkAnswers {
  import opened Text
  import opened OwnershipState
  import opened OwnedOperations
  import opened OwnedSharedWork

  /**
   * Entry, in every run. A caller is turned away exactly when its key has a leader whose resource is unknown,
   * follows exactly a leader that is beginning or live, leads exactly when the key has none, and looks
   * again, with that leader dropped, exactly when the leader's operation is over.
   */
  lemma EntryDecides(run: seq<State>, i: nat, c: CallerId, newcomer: LeaderId)
    requires IsRun(run) && i < |run| && Enabled(run[i], Look(c, newcomer))
    ensures var s, s' := run[i], Apply(run[i], Look(c, newcomer));
            var key := s.callers[c].key;
            && (key in s.leaders ==> s.leaders[key] in s.all)
            && c in s'.callers
            && (s'.callers[c].state == TurnedAway <==> key in s.leaders && Unknowable(s.all[s.leaders[key]]))
            && (s'.callers[c].state.Following? <==> key in s.leaders && Alive(s.all[s.leaders[key]]))
            && (s'.callers[c].state.Following? ==> s'.callers[c].state == Following(s.leaders[key]))
            && (s'.callers[c].state == Leading(newcomer) <==> key !in s.leaders)
            && (s'.callers[c].state == Entering <==> key in s.leaders && Over(s.all[s.leaders[key]]))
    ensures var s, s' := run[i], Apply(run[i], Look(c, newcomer));
            var key := s.callers[c].key;
            && s'.leaders == (if key !in s.leaders then s.leaders[key := newcomer]
                              else if Over(s.all[s.leaders[key]]) then s.leaders - {key} else s.leaders)
            && (key !in s.leaders ==>
                  s'.all == s.all[newcomer := Leader(key, s.callers[c].fingerprint, s.callers[c].budget, None, Idle, Unsettled)])
            && (key in s.leaders ==> s'.all == s.all)
  {
    RunInv(run, i);
  }

  /**
   * The end of a wait. A result goes to the leading caller and to followers of its fingerprint. Any other
   * follower is turned away while the leader's operation is not over, and otherwise starts anew; so
   * does a follower whose wait failed, and a leading caller whose wait failed is turned away.
   */
  lemma ObserveDecides(s: State, c: CallerId)
    requires Inv(s) && Enabled(s, Observe(c))
    ensures var l := LeaderOf(s, c).value;
            var s' := Apply(s, Observe(c));
            var mine := s.callers[c].state.Leading? || s.all[l].fingerprint == s.callers[c].fingerprint;
            && c in s'.callers
            && (s'.callers[c].state == Got(l) <==> s.all[l].task == Resolved && mine)
            && (s'.callers[c].state == Entering <==>
                  s.callers[c].state.Following? && Over(s.all[l]) && !(s.all[l].task == Resolved && mine))
            && (s'.callers[c].state.Got? || s'.callers[c].state == Entering || s'.callers[c].state == TurnedAway)
            && (s'.callers[c].state == Entering ==> s.callers[c].key !in s'.leaders || s'.leaders[s.callers[c].key] != l)
  {}

  /** A caller that stops waiting without an answer has one: it starts anew behind a leader that is over, and is turned away otherwise. */
  lemma StopDecides(s: State, c: CallerId)
    requires Inv(s) && Enabled(s, StopWaiting(c))
    ensures var l := LeaderOf(s, c).value;
            var s' := Apply(s, StopWaiting(c));
            && c in s'.callers
            && s'.callers[c].state == if s.callers[c].state.Following? && Over(s.all[l]) then Entering else TurnedAway
  {}

  /** When a task is over its leader goes, exactly if it is still the one its key names and its operation is over. */
  lemma SweepDecides(s: State, l: LeaderId)
    requires Inv(s) && l in s.all && s.all[l].task != Unsettled
    ensures Enabled(s, Sweep(l)) <==> Over(s.all[l])
    ensures Enabled(s, Sweep(l)) ==>
              Apply(s, Sweep(l)).leaders ==
                if s.all[l].key in s.leaders && s.leaders[s.all[l].key] == l then s.leaders - {s.all[l].key} else s.leaders
  {}

  // ---------------------------------------------------------------- what stands behind a result

  /** The outcome the operation shows follows from what work() and the promise of its leader did. */
  predicate Truthful(x: Leader) {
    x.op.Some? ==>
      var o := x.op.value;
      && (x.task == Unsettled && !WorkOver(x.work) ==> o.callerOutcome == Pending)
      && (x.task == Unsettled && x.work.Returned? ==> o.callerOutcome == Pending || o.callerOutcome == Success)
      && (x.task == Unsettled && x.work.Threw? ==> o.callerOutcome != Success && o.callerOutcome != TimedOut)
      && (x.task == Unsettled && Over(x) ==> o.callerOutcome != Pending && o.record.outcome == o.callerOutcome)
      && (x.task == Resolved ==> Over(x) && o.callerOutcome == Success && o.record.outcome == Success)
      && (x.task == Rejected ==> o.callerOutcome != Pending)
  }

  /** Nothing unproved touches an operation that is over. */
  lemma OverIsFinal(o: Op, patch: Patch, now: int)
    requires OpSound(o) && (o.record.resource == Stopped || o.record.resource == NotStarted)
    ensures PersistNext(o, patch, false, now).None? && MarkUncertain(o) == o && GoneUnknown(o) == o && BeginCancel(o).None?
  {}

  lemma UnprovedTruthful(x: Leader, move: LeaderMove)
    requires Sound(x) && Truthful(x) && MoveEnabled(x, move) && (move.Persists? || move.Cancels? || move.Marks? || move.SetsDispatched?)
    ensures Truthful(Moved(x, move))
  {
    if Over(x) {
      OverIsFinal(x.op.value, if move.Persists? then move.patch else EMPTY_PATCH, if move.Persists? then move.now else 0);
    } else {
      OpMoveSound(x, move);
      MarkingSound(x.op.value);
      if move.Persists? { UnprovedSound(x.op.value, move.patch, move.now, move.expired); }
    }
  }

  lemma SettledOnce(o: Op, c: Claim, now: int, expired: bool)
    ensures o.callerOutcome != Pending ==> Proved(o, c, now, expired).callerOutcome == o.callerOutcome
    ensures c.outcome != Pending ==> Proved(o, c, now, expired).callerOutcome != Pending
    ensures IsTerminal(Proved(o, c, now, expired).record) && !IsTerminal(o.record) ==>
              Proved(o, c, now, expired).record.outcome == Proved(o, c, now, expired).callerOutcome
  {}

  lemma GivenUpTruthful(x: Leader, move: LeaderMove)
    requires Sound(x) && Truthful(x) && MoveEnabled(x, move) && (move.WaitEnds? || move.Rejects?)
    ensures Truthful(Moved(x, move))
  {
    MarkingSound(x.op.value);
  }

  lemma BadBudgetTruthful(x: Leader, move: LeaderMove)
    requires Sound(x) && Truthful(x) && MoveEnabled(x, move) && move.BadBudget?
    ensures Truthful(Moved(x, move))
  {
    MarkingSound(x.op.value);
    SettledOnce(x.op.value, NeverDispatchedClaim(x.op.value), move.now, move.expired);
  }

  lemma SettledTruthful(x: Leader, move: LeaderMove)
    requires Sound(x) && Truthful(x) && MoveEnabled(x, move) && move.Proves?
    ensures Truthful(Moved(x, move))
  {
    SettledOnce(x.op.value, ClaimAfter(x.op.value, x.work).value, move.now, move.expired);
  }

  lemma EndTruthful(x: Leader, move: LeaderMove)
    requires Sound(x) && Truthful(x) && MoveEnabled(x, move) && (move.WaitEnds? || move.BadBudget? || move.Proves? || move.Rejects?)
    ensures Truthful(Moved(x, move))
  {
    if move.Proves? { SettledTruthful(x, move); }
    else if move.BadBudget? { BadBudgetTruthful(x, move); }
    else { GivenUpTruthful(x, move); }
  }

  lemma MoveTruthful(x: Leader, move: LeaderMove)
    requires Sound(x) && Truthful(x) && MoveEnabled(x, move)
    ensures Truthful(Moved(x, move))
  {
    if move.Persists? || move.Cancels? || move.Marks? || move.SetsDispatched? {
      UnprovedTruthful(x, move);
    } else if move.WaitEnds? || move.BadBudget? || move.Proves? || move.Rejects? {
      EndTruthful(x, move);
    }
  }

  predicate AllTruthful(s: State) {
    forall l :: l in s.all ==> Truthful(s.all[l])
  }

  lemma StepTruthful(s: State, step: Step)
    requires Inv(s) && AllTruthful(s) && Enabled(s, step)
    ensures AllTruthful(Apply(s, step))
  {
    if step.Move? { MoveTruthful(s.all[step.leader], step.move); }
  }

  lemma {:induction false} RunTruthful(run: seq<State>, i: nat)
    requires IsRun(run) && i < |run|
    ensures AllTruthful(run[i])
  {
    if i > 0 {
      RunTruthful(run, i - 1);
      RunInv(run, i - 1);
      assert NextAt(run, i - 1);
      var step :| Enabled(run[i - 1], step) && run[i] == Apply(run[i - 1], step);
      StepTruthful(run[i - 1], step);
    }
  }

  /**
   * In every run a caller that holds a result holds that of a work() which returned, by a leader of its key
   * and fingerprint whose operation is stopped or was never started, and is recorded as a success.
   */
  lemma ResultsAreSuccesses(run: seq<State>, i: nat, c: CallerId)
    requires IsRun(run) && i < |run| && c in run[i].callers && run[i].callers[c].state.Got?
    ensures var l := run[i].callers[c].state.source;
            && l in run[i].all && run[i].all[l].work == Returned && Over(run[i].all[l])
            && run[i].all[l].key == run[i].callers[c].key && run[i].all[l].fingerprint == run[i].callers[c].fingerprint
            && run[i].all[l].op.value.callerOutcome == Success && run[i].all[l].op.value.record.outcome == Success
  {
    RunInv(run, i);
    RunTruthful(run, i);
    assert GoodCaller(run[i], c);
  }

  /**
   * What settling a finished work() records once its persist is acknowledged in time: a success if it
   * returned, otherwise cancelled exactly when a cancel was requested and failed when not; not_started
   * exactly when nothing was ever dispatched, and stopped otherwise.
   */
  lemma ProvesDecides(x: Leader, now: int, children: bool)
    requires Sound(x) && Truthful(x) && MoveEnabled(x, Proves(now, children, false)) && x.op.value.callerOutcome == Pending
    ensures var o, o' := x.op.value, Moved(x, Proves(now, children, false)).op.value;
            && (o'.callerOutcome == Success <==> x.work.Returned?)
            && (o'.callerOutcome == Cancelled <==> x.work.Threw? && o.aborted)
            && (o'.callerOutcome == Failed <==> x.work.Threw? && !o.aborted)
            && o'.record.outcome == o'.callerOutcome && o'.durable && !o'.uncertain
            && (o'.record.resource == NotStarted <==>
                  !o.dispatched && o.record.remoteFence.None? && o.record.resource != Running && o.record.resource != BackgroundOwned)
            && (o'.record.resource == NotStarted || o'.record.resource == Stopped)
  {
    CompletionDecides(x.op.value, ClaimAfter(x.op.value, x.work).value.outcome, ClaimAfter(x.op.value, x.work).value.proof,
                      ClaimAfter(x.op.value, x.work).value.resource, children);
  }

  /** Nothing was dispatched for it and no fence was bound. */
  predicate NeverLeft(o: Op) {
    !o.dispatched && o.record.remoteFence.None? && o.record.resource != Running && o.record.resource != BackgroundOwned
  }

  /**
   * Exactly when a finished work() is settled. If it returned, its record must name no sandbox, and nothing
   * was dispatched, or the work is plainly over: not in doubt, without a fence or open children. If it
   * threw, nothing was dispatched and it was not the wait that ended.
   */
  lemma SettlesDecides(x: Leader, now: int, children: bool, expired: bool)
    ensures MoveEnabled(x, Proves(now, children, expired)) <==>
            && x.op.Some? && !Over(x) && x.task == Unsettled
            && match x.work
               case Returned =>
                 && x.op.value.record.sandboxUid.None?
                 && (|| NeverLeft(x.op.value)
                     || (&& x.op.value.record.resource != Unknown && !x.op.value.dispatched && !x.op.value.uncertain
                         && x.op.value.record.remoteFence.None? && !children))
               case Threw(waitEnded) => !waitEnded && NeverLeft(x.op.value)
               case _ => false
  {}

  /** A task given up on leaves its operation unknown, with an outcome, unless it is over: then nothing changes. */
  lemma AbandonDecides(x: Leader, move: LeaderMove)
    requires Sound(x) && MoveEnabled(x, move) && (move.WaitEnds? || move.Rejects?)
    ensures var x' := Moved(x, move);
            && x'.task == Rejected && x'.work == x.work
            && (Over(x) ==> x'.op == x.op)
            && (!Over(x) ==> Unknowable(x') && x'.op.value.uncertain && !x'.op.value.durable)
            && (!Over(x) && x.op.value.callerOutcome == Pending ==>
                  x'.op.value.callerOutcome == if x.op.value.aborted then Cancelled else Failed)
  {
    MarkingSound(x.op.value);
  }
}
