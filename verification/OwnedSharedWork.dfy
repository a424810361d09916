/** Singleflight over owned operations (ownedSharedWork.ts). */
module OwnedSharedWork {
  import opened Text
  import opened OwnershipState
  import opened OwnedOperations

  type Key = string
  type LeaderId = nat
  type CallerId = nat

  /** The promise of work(); `waitEnded` says that it failed with an ended wait. */
  datatype Work = Idle | InProgress | Returned | Threw(waitEnded: bool)

  datatype Task = Unsettled | Resolved | Rejected

  /** `op` is the leader's operation once begin has succeeded, `budget` the owner's time budget for work(). */
  datatype Leader = Leader(key: Key, fingerprint: string, budget: int, op: Option<Op>, work: Work, task: Task)

  /** The leader's operation as followers see it. */
  datatype OpState = NoOp | Active | Doubtful | Ended

  function StateOf(l: Leader): OpState {
    if l.op.None? then NoOp
    else if IsTerminal(l.op.value.record) then Ended
    else if l.op.value.record.resource == Unknown then Doubtful
    else Active
  }

  datatype CallerState = Entering | Following(leader: LeaderId) | Leading(own: LeaderId) | Got(source: LeaderId) | TurnedAway

  datatype Caller = Caller(key: Key, fingerprint: string, budget: int, state: CallerState)

  datatype State = State(leaders: map<Key, LeaderId>, all: map<LeaderId, Leader>, callers: map<CallerId, Caller>)

  const INIT := State(map[], map[], map[])

  // ---------------------------------------------------------------- settling the operation

  /** The proof the leader's task asks for once work() is over, if it asks for any. */
  datatype Claim = Claim(outcome: Outcome, proof: Proof, resource: Resource)

  function NeverDispatchedClaim(o: Op): Claim {
    Claim(if o.aborted then Cancelled else Failed, Proof(NeverDispatched, o.record.attemptId, o.record.sandboxUid), NotStarted)
  }

  function ClaimAfter(o: Op, work: Work): Option<Claim> {
    match work
    case Returned =>
      if CanProveNeverDispatched(o) then Some(Claim(Success, Proof(NeverDispatched, o.record.attemptId, None), NotStarted))
      else if o.record.resource == Unknown then None
      else Some(Claim(Success, Proof(CoordinatorSettled, o.record.attemptId, None), Stopped))
    case Threw(waitEnded) => if !waitEnded && CanProveNeverDispatched(o) then Some(NeverDispatchedClaim(o)) else None
    case _ => None
  }

  predicate ClaimHolds(o: Op, c: Claim, children: bool) {
    CompleteAllowed(o, c.outcome, c.proof, c.resource, children)
  }

  /** complete, with its persist acknowledged in time or too late. */
  function Proved(o: Op, c: Claim, now: int, expired: bool): Op {
    var settled := SettleOutcome(o, c.outcome);
    var waiting := if expired then MarkUncertain(settled) else settled;
    var next := PersistNext(settled, EMPTY_PATCH.(resource := Some(c.resource)), true, now);
    if next.None? then waiting else PersistCommitted(waiting, next.value, true, expired)
  }

  function GoneUnknown(o: Op): Op {
    var unknown := BeginUnknown(o, false);
    if unknown.None? then o else unknown.value
  }

  // ---------------------------------------------------------------- steps

  /** The largest distance from the epoch a JavaScript date can have, in milliseconds. */
  const DATE_LIMIT := 8_640_000_000_000_000

  /** phase writes its deadline as a date before it starts work(): outside the range of dates that throws. */
  predicate DeadlineIsDate(now: int, budget: int) {
    0 <= now <= DATE_LIMIT && -DATE_LIMIT <= now + budget <= DATE_LIMIT
  }

  datatype LeaderMove =
    | BeginOk(record: Record)
    | BeginFailed
    | StartWork(now: int)
    | NeverStarts(waitEnded: bool)
    | WorkReturns
    | WorkThrows(waitEnded: bool)
    | WaitEnds
    | BadBudget(now: int, expired: bool)
    | Persists(patch: Patch, now: int, expired: bool)
    | Cancels
    | Marks
    | SetsDispatched(dispatched: bool)
    | Proves(now: int, children: bool, expired: bool)
    | Resolves
    | Rejects

  datatype Step =
    | Call(caller: CallerId, key: Key, fingerprint: string, budget: int)
    | Look(caller: CallerId, newcomer: LeaderId)
    | Observe(caller: CallerId)
    | StopWaiting(caller: CallerId)
    | Move(leader: LeaderId, move: LeaderMove)
    | Sweep(leader: LeaderId)

  predicate FreshReservation(r: Record) {
    r.resource == Reserved && r.outcome == Pending && r.remoteFence.None? && r.sandboxUid.None?
  }

  predicate WorkOver(w: Work) {
    w.Returned? || w.Threw?
  }

  /** What happens to a leader: its task, its work(), and what work() and cancels do to its operation meanwhile. */
  predicate MoveEnabled(l: Leader, move: LeaderMove) {
    match move
    case BeginOk(record) => l.op.None? && l.task == Unsettled && FreshReservation(record)
    case BeginFailed => l.op.None? && l.task == Unsettled
    case StartWork(now) =>
      StateOf(l) in {Active, Doubtful} && l.work == Idle && l.task == Unsettled && !l.op.value.aborted && DeadlineIsDate(now, l.budget)
    case NeverStarts(_) => StateOf(l) in {Active, Doubtful} && l.work == Idle && l.task == Unsettled
    case WorkReturns => l.work == InProgress
    case WorkThrows(_) => l.work == InProgress
    case WaitEnds => l.work == InProgress && l.task == Unsettled && l.op.Some?
    case BadBudget(_, _) => l.work == InProgress && l.task == Unsettled && l.budget < 0 && l.op.Some?
    case Persists(patch, now, _) =>
      l.op.Some? && UpdateAllowed(l.op.value, patch) && PersistNext(l.op.value, patch, false, now).Some?
    case Cancels => l.op.Some? && BeginCancel(l.op.value).Some?
    case Marks => l.op.Some?
    case SetsDispatched(_) => l.op.Some?
    case Proves(_, children, _) =>
      && StateOf(l) in {Active, Doubtful} && l.task == Unsettled && WorkOver(l.work)
      && ClaimAfter(l.op.value, l.work).Some? && ClaimHolds(l.op.value, ClaimAfter(l.op.value, l.work).value, children)
    case Resolves => l.work == Returned && l.task == Unsettled && StateOf(l) == Ended
    case Rejects => WorkOver(l.work) && l.task == Unsettled && l.op.Some?
  }

  function WithOp(l: Leader, op: Op): Leader {
    l.(op := Some(op))
  }

  function Moved(l: Leader, move: LeaderMove): Leader
    requires MoveEnabled(l, move)
  {
    match move
    case BeginOk(record) => WithOp(l, AcceptReservation(Create(record), record))
    case BeginFailed => l.(task := Rejected)
    case StartWork(_) => l.(work := InProgress)
    case NeverStarts(waitEnded) => l.(work := Threw(waitEnded))
    case WorkReturns => l.(work := Returned)
    case WorkThrows(waitEnded) => l.(work := Threw(waitEnded))
    case WaitEnds => WithOp(l, GoneUnknown(l.op.value)).(task := Rejected)
    // the range check of the wait fails: taken for a failure of work(), it is settled as never dispatched where that holds
    case BadBudget(now, expired) =>
      var o, c := l.op.value, NeverDispatchedClaim(l.op.value);
      WithOp(l, if ClaimHolds(o, c, false) then Proved(o, c, now, expired) else GoneUnknown(o)).(task := Rejected)
    case Persists(patch, now, expired) =>
      WithOp(l, PersistCommitted(l.op.value, PersistNext(l.op.value, patch, false, now).value, false, expired))
    case Cancels => WithOp(l, BeginCancel(l.op.value).value)
    case Marks => WithOp(l, MarkUncertain(l.op.value))
    case SetsDispatched(dispatched) => WithOp(l, l.op.value.(dispatched := dispatched))
    case Proves(now, _, expired) => WithOp(l, Proved(l.op.value, ClaimAfter(l.op.value, l.work).value, now, expired))
    case Resolves => l.(task := Resolved)
    case Rejects => WithOp(l, GoneUnknown(l.op.value)).(task := Rejected)
  }

  function Without(s: State, key: Key, l: LeaderId): State {
    if key in s.leaders && s.leaders[key] == l then s.(leaders := s.leaders - {key}) else s
  }

  function WithCaller(s: State, c: CallerId, state: CallerState): State
    requires c in s.callers
  {
    s.(callers := s.callers[c := s.callers[c].(state := state)])
  }

  /** Where a caller's leader stands, when it has one. */
  function LeaderOf(s: State, c: CallerId): Option<LeaderId>
    requires c in s.callers
  {
    match s.callers[c].state
    case Following(l) => Some(l)
    case Leading(l) => Some(l)
    case _ => None
  }

  predicate Enabled(s: State, step: Step) {
    match step
    case Call(c, _, _, _) => c !in s.callers
    case Look(c, newcomer) => c in s.callers && s.callers[c].state == Entering && newcomer !in s.all
    case Observe(c) =>
      && c in s.callers && LeaderOf(s, c).Some? && LeaderOf(s, c).value in s.all && s.all[LeaderOf(s, c).value].task != Unsettled
    case StopWaiting(c) => c in s.callers && LeaderOf(s, c).Some? && LeaderOf(s, c).value in s.all
    case Move(l, move) => l in s.all && MoveEnabled(s.all[l], move)
    case Sweep(l) => l in s.all && s.all[l].task != Unsettled && StateOf(s.all[l]) == Ended
  }

  function AfterLook(s: State, c: CallerId, newcomer: LeaderId): State
    requires c in s.callers
  {
    var caller := s.callers[c];
    var key := caller.key;
    if key in s.leaders && s.leaders[key] in s.all then
      var existing := s.all[s.leaders[key]];
      if StateOf(existing) == Ended then s.(leaders := s.leaders - {key})
      else if StateOf(existing) == Doubtful then WithCaller(s, c, TurnedAway)
      else WithCaller(s, c, Following(s.leaders[key]))
    else
      WithCaller(s.(leaders := s.leaders[key := newcomer],
                    all := s.all[newcomer := Leader(key, caller.fingerprint, caller.budget, None, Idle, Unsettled)]),
                 c, Leading(newcomer))
  }

  // ---------------------------------------------------------------- entering, in place

  /** The leader has an operation, and nobody knows what became of its resource. */
  predicate Unknowable(l: Leader) {
    l.op.Some? && l.op.value.record.resource == Unknown
  }

  /** The leader has an operation whose resource is stopped or was never started. */
  predicate Over(l: Leader) {
    l.op.Some? && (l.op.value.record.resource == Stopped || l.op.value.record.resource == NotStarted)
  }

  /** The leader is still beginning, or its operation is neither unknown nor over. */
  predicate Alive(l: Leader) {
    !Unknowable(l) && !Over(l)
  }

  datatype Decision = Lead | Follow(leader: LeaderId) | Blocked

  /** The Look steps of one caller up to its decision: an ended leader is dropped first. */
  function Looked(s: State, c: CallerId, newcomer: LeaderId): State
    requires c in s.callers
  {
    var once := AfterLook(s, c, newcomer);
    if once.callers[c].state == Entering then AfterLook(once, c, newcomer) else once
  }

  function StateAfter(d: Decision, newcomer: LeaderId): CallerState {
    match d
    case Lead => Leading(newcomer)
    case Follow(l) => Following(l)
    case Blocked => TurnedAway
  }

  /** The leaders map, changed at the top of run's loop. */
  class SharedWork {
    var leaders: map<Key, LeaderId>

    constructor ()
      ensures leaders == map[]
    {
      leaders := map[];
    }

    /** The loop until it leads, follows or is blocked: exactly the Look steps of the caller. */
    method Enter(all: map<LeaderId, Leader>, caller: Caller, newcomer: LeaderId, ghost s: State, ghost c: CallerId)
      returns (d: Decision)
      requires s.leaders == leaders && s.all == all && c in s.callers && s.callers[c] == caller && caller.state == Entering
      requires forall k :: k in leaders ==> leaders[k] in all
      modifies this
      ensures leaders == Looked(s, c, newcomer).leaders
      ensures StateAfter(d, newcomer) == Looked(s, c, newcomer).callers[c].state
      ensures d == Blocked <==> caller.key in old(leaders) && Unknowable(all[old(leaders)[caller.key]])
      ensures d.Follow? <==> caller.key in old(leaders) && Alive(all[old(leaders)[caller.key]])
      ensures d.Follow? ==> d.leader == old(leaders)[caller.key]
      ensures leaders == if d == Lead then old(leaders)[caller.key := newcomer] else old(leaders)
    {
      while caller.key in leaders
        invariant leaders == s.leaders || (leaders == s.leaders - {caller.key} && leaders == AfterLook(s, c, newcomer).leaders
                                           && AfterLook(s, c, newcomer).callers == s.callers
                                           && caller.key in s.leaders && Over(all[s.leaders[caller.key]]))
        decreases caller.key in leaders
      {
        var existing := leaders[caller.key];
        if StateOf(all[existing]) != Ended {
          d := if StateOf(all[existing]) == Doubtful then Blocked else Follow(existing);
          return;
        }
        leaders := leaders - {caller.key};
      }
      leaders := leaders[caller.key := newcomer];
      d := Lead;
    }
  }

  /** What a follower does with a failed wait. */
  function AfterFailure(s: State, c: CallerId, l: LeaderId): State
    requires c in s.callers && l in s.all
  {
    if s.callers[c].state.Following? && StateOf(s.all[l]) == Ended
    then WithCaller(Without(s, s.callers[c].key, l), c, Entering)
    else WithCaller(s, c, TurnedAway)
  }

  function AfterResult(s: State, c: CallerId, l: LeaderId): State
    requires c in s.callers && l in s.all
  {
    if s.callers[c].state.Leading? || s.all[l].fingerprint == s.callers[c].fingerprint then WithCaller(s, c, Got(l))
    else if StateOf(s.all[l]) != Ended then WithCaller(s, c, TurnedAway)
    else WithCaller(Without(s, s.callers[c].key, l), c, Entering)
  }

  function AfterMove(s: State, l: LeaderId, move: LeaderMove): State
    requires l in s.all && MoveEnabled(s.all[l], move)
  {
    var moved := s.(all := s.all[l := Moved(s.all[l], move)]);
    if move == BeginFailed then Without(moved, s.all[l].key, l) else moved
  }

  function Apply(s: State, step: Step): State
    requires Enabled(s, step)
  {
    match step
    case Call(c, key, fingerprint, budget) => s.(callers := s.callers[c := Caller(key, fingerprint, budget, Entering)])
    case Look(c, newcomer) => AfterLook(s, c, newcomer)
    case Observe(c) =>
      var l := LeaderOf(s, c).value;
      if s.all[l].task == Resolved then AfterResult(s, c, l) else AfterFailure(s, c, l)
    case StopWaiting(c) => AfterFailure(s, c, LeaderOf(s, c).value)
    case Move(l, move) => AfterMove(s, l, move)
    case Sweep(l) => Without(s, s.all[l].key, l)
  }

  // ---------------------------------------------------------------- the invariant

  /** A leader that is not terminal, and did not fail to begin, is the leader of its key. */
  predicate Owned(s: State, l: LeaderId)
    requires l in s.all
  {
    var x := s.all[l];
    StateOf(x) == Ended || (x.op.None? && x.task == Rejected) || (x.key in s.leaders && s.leaders[x.key] == l)
  }

  /** A terminal record was proved, acknowledged and made durable, so nothing unproved touches it. */
  predicate OpSound(o: Op) {
    IsTerminal(o.record) ==> o.durable && IsTerminal(o.acknowledged)
  }

  /** Only a budget that fails the range check ends an operation whose work() is still to finish. */
  predicate Sound(x: Leader) {
    && (x.op.None? ==> x.work == Idle && x.task != Resolved)
    && (x.op.Some? ==> OpSound(x.op.value))
    && (StateOf(x) == Ended && !WorkOver(x.work) ==> x.budget < 0 && x.task == Rejected)
    && (x.work == InProgress ==> x.budget >= -2 * DATE_LIMIT)
    && (x.task == Resolved ==> x.work == Returned)
  }

  predicate GoodCaller(s: State, c: CallerId)
    requires c in s.callers
  {
    match s.callers[c].state
    case Entering => true
    case TurnedAway => true
    case Following(l) => l in s.all && s.all[l].key == s.callers[c].key
    case Leading(l) => l in s.all && s.all[l].key == s.callers[c].key && s.all[l].fingerprint == s.callers[c].fingerprint
    case Got(l) =>
      && l in s.all && s.all[l].key == s.callers[c].key && s.all[l].fingerprint == s.callers[c].fingerprint
      && s.all[l].task == Resolved
  }

  predicate Inv(s: State) {
    && (forall l {:trigger Owned(s, l)} :: l in s.all ==> Owned(s, l))
    && (forall l :: l in s.all ==> Sound(s.all[l]))
    && (forall k :: k in s.leaders ==> s.leaders[k] in s.all && s.all[s.leaders[k]].key == k)
    && (forall c {:trigger GoodCaller(s, c)} :: c in s.callers ==> GoodCaller(s, c))
  }

  lemma ProvedSound(o: Op, c: Claim, now: int, expired: bool)
    requires !IsTerminal(o.record) && c.resource in {Stopped, NotStarted}
    ensures OpSound(Proved(o, c, now, expired))
  {}

  /** Unproved updates, cancels and marks leave an open operation open and a terminal one as it is. */
  lemma UnprovedSound(o: Op, patch: Patch, now: int, expired: bool)
    requires OpSound(o) && UpdateAllowed(o, patch) && PersistNext(o, patch, false, now).Some?
    ensures !IsTerminal(o.record)
    ensures !IsTerminal(PersistCommitted(o, PersistNext(o, patch, false, now).value, false, expired).record)
  {
    UnprovedStaysOpen(o, patch, now);
  }

  lemma MarkingSound(o: Op)
    requires OpSound(o)
    ensures OpSound(MarkUncertain(o)) && OpSound(GoneUnknown(o))
    ensures IsTerminal(o.record) ==> MarkUncertain(o) == o && GoneUnknown(o) == o
    ensures IsTerminal(MarkUncertain(o).record) || IsTerminal(GoneUnknown(o).record) ==> IsTerminal(o.record)
    ensures BeginCancel(o).Some? ==> !IsTerminal(o.record) && !IsTerminal(BeginCancel(o).value.record)
  {}

  /** What a move keeps, apart from the operation's own state. */
  predicate Follows(x: Leader, x': Leader) {
    && x'.key == x.key && x'.fingerprint == x.fingerprint && x'.budget == x.budget
    && (x.task == Resolved ==> x'.task == Resolved)
    && (x.task == Rejected ==> x'.task == Rejected)
    && (x.op.Some? ==> x'.op.Some?)
    && (StateOf(x) == Ended ==> StateOf(x') == Ended)
  }

  lemma OpMoveSound(x: Leader, move: LeaderMove)
    requires Sound(x) && MoveEnabled(x, move) && (move.Persists? || move.Cancels? || move.Marks? || move.SetsDispatched?)
    ensures Sound(Moved(x, move)) && Follows(x, Moved(x, move))
  {
    MarkingSound(x.op.value);
    if move.Persists? { UnprovedSound(x.op.value, move.patch, move.now, move.expired); }
  }

  lemma EndMoveSound(x: Leader, move: LeaderMove)
    requires Sound(x) && MoveEnabled(x, move) && (move.WaitEnds? || move.BadBudget? || move.Proves? || move.Rejects?)
    ensures Sound(Moved(x, move)) && Follows(x, Moved(x, move))
  {
    var o := x.op.value;
    MarkingSound(o);
    if move.BadBudget? {
      ProvedSound(o, NeverDispatchedClaim(o), move.now, move.expired);
    } else if move.Proves? {
      var c := ClaimAfter(o, x.work).value;
      ProvedSound(o, c, move.now, move.expired);
    }
  }

  lemma MoveSound(x: Leader, move: LeaderMove)
    requires Sound(x) && MoveEnabled(x, move)
    ensures Sound(Moved(x, move)) && Follows(x, Moved(x, move))
  {
    if move.Persists? || move.Cancels? || move.Marks? || move.SetsDispatched? {
      OpMoveSound(x, move);
    } else if move.WaitEnds? || move.BadBudget? || move.Proves? || move.Rejects? {
      EndMoveSound(x, move);
    }
  }

  lemma MoveOwned(s: State, l: LeaderId, move: LeaderMove, x: LeaderId)
    requires l in s.all && x in s.all && Owned(s, x) && Sound(s.all[l]) && MoveEnabled(s.all[l], move)
    ensures Owned(AfterMove(s, l, move), x)
  {
    if x == l { MoveSound(s.all[l], move); }
  }

  lemma MoveCaller(s: State, l: LeaderId, move: LeaderMove, c: CallerId)
    requires l in s.all && c in s.callers && GoodCaller(s, c) && Sound(s.all[l]) && MoveEnabled(s.all[l], move)
    ensures GoodCaller(AfterMove(s, l, move), c)
  {
    MoveSound(s.all[l], move);
  }

  lemma MoveInv(s: State, l: LeaderId, move: LeaderMove)
    requires Inv(s) && l in s.all && MoveEnabled(s.all[l], move)
    ensures Inv(AfterMove(s, l, move))
  {
    var s' := AfterMove(s, l, move);
    MoveSound(s.all[l], move);
    forall x | x in s'.all ensures Owned(s', x) {
      assert Owned(s, x);
      MoveOwned(s, l, move, x);
    }
    forall c | c in s'.callers ensures GoodCaller(s', c) {
      assert GoodCaller(s, c);
      MoveCaller(s, l, move, c);
    }
  }

  /** Removing a terminal leader takes nothing from anyone else. */
  lemma WithoutInv(s: State, key: Key, l: LeaderId)
    requires Inv(s) && l in s.all && StateOf(s.all[l]) == Ended
    ensures Inv(Without(s, key, l))
  {
    var s' := Without(s, key, l);
    forall x | x in s'.all ensures Owned(s', x) { assert Owned(s, x); }
    forall c | c in s'.callers ensures GoodCaller(s', c) { assert GoodCaller(s, c); }
  }

  lemma CallerInv(s: State, c: CallerId, state: CallerState)
    requires Inv(s) && c in s.callers && GoodCaller(WithCaller(s, c, state), c)
    ensures Inv(WithCaller(s, c, state))
  {
    var s' := WithCaller(s, c, state);
    forall x | x in s'.all ensures Owned(s', x) { assert Owned(s, x); }
    forall d | d in s'.callers ensures GoodCaller(s', d) { if d != c { assert GoodCaller(s, d); } }
  }

  lemma NewLeaderInv(s: State, c: CallerId, newcomer: LeaderId)
    requires Inv(s) && c in s.callers && newcomer !in s.all && s.callers[c].key !in s.leaders
    ensures Inv(AfterLook(s, c, newcomer))
  {
    var s' := AfterLook(s, c, newcomer);
    forall x | x in s'.all ensures Owned(s', x) { if x != newcomer { assert Owned(s, x); } }
    forall d | d in s'.callers ensures GoodCaller(s', d) { if d != c { assert GoodCaller(s, d); } }
  }

  lemma LookInv(s: State, c: CallerId, newcomer: LeaderId)
    requires Inv(s) && c in s.callers && newcomer !in s.all
    ensures Inv(AfterLook(s, c, newcomer))
  {
    var key := s.callers[c].key;
    if key !in s.leaders {
      NewLeaderInv(s, c, newcomer);
    } else {
      var l := s.leaders[key];
      if StateOf(s.all[l]) == Ended { WithoutInv(s, key, l); }
      else if StateOf(s.all[l]) == Doubtful { CallerInv(s, c, TurnedAway); }
      else { CallerInv(s, c, Following(l)); }
    }
  }

  lemma FailureInv(s: State, c: CallerId, l: LeaderId)
    requires Inv(s) && c in s.callers && l in s.all
    ensures Inv(AfterFailure(s, c, l))
  {
    if s.callers[c].state.Following? && StateOf(s.all[l]) == Ended {
      WithoutInv(s, s.callers[c].key, l);
      CallerInv(Without(s, s.callers[c].key, l), c, Entering);
    } else {
      CallerInv(s, c, TurnedAway);
    }
  }

  lemma ResultInv(s: State, c: CallerId, l: LeaderId)
    requires Inv(s) && c in s.callers && LeaderOf(s, c) == Some(l) && l in s.all && s.all[l].task == Resolved
    ensures Inv(AfterResult(s, c, l))
  {
    assert GoodCaller(s, c);
    if s.callers[c].state.Leading? || s.all[l].fingerprint == s.callers[c].fingerprint {
      CallerInv(s, c, Got(l));
    } else if StateOf(s.all[l]) != Ended {
      CallerInv(s, c, TurnedAway);
    } else {
      WithoutInv(s, s.callers[c].key, l);
      CallerInv(Without(s, s.callers[c].key, l), c, Entering);
    }
  }

  lemma CallInv(s: State, c: CallerId, key: Key, fingerprint: string, budget: int)
    requires Inv(s) && c !in s.callers
    ensures Inv(Apply(s, Call(c, key, fingerprint, budget)))
  {
    var s' := Apply(s, Call(c, key, fingerprint, budget));
    forall x | x in s'.all ensures Owned(s', x) { assert Owned(s, x); }
    forall d | d in s'.callers ensures GoodCaller(s', d) { if d != c { assert GoodCaller(s, d); } }
  }

  lemma StepInv(s: State, step: Step)
    requires Inv(s) && Enabled(s, step)
    ensures Inv(Apply(s, step))
  {
    match step {
      case Call(c, key, fingerprint, budget) => CallInv(s, c, key, fingerprint, budget);
      case Look(c, newcomer) => LookInv(s, c, newcomer);
      case Observe(c) =>
        var l := LeaderOf(s, c).value;
        if s.all[l].task == Resolved { ResultInv(s, c, l); } else { FailureInv(s, c, l); }
      case StopWaiting(c) => FailureInv(s, c, LeaderOf(s, c).value);
      case Move(l, move) => MoveInv(s, l, move);
      case Sweep(l) => WithoutInv(s, s.all[l].key, l);
    }
  }

  ghost predicate NextAt(run: seq<State>, i: nat)
    requires i + 1 < |run|
  {
    exists step :: Enabled(run[i], step) && run[i + 1] == Apply(run[i], step)
  }

  ghost predicate IsRun(run: seq<State>) {
    |run| > 0 && run[0] == INIT && forall i :: 0 <= i < |run| - 1 ==> NextAt(run, i)
  }

  lemma {:induction false} RunInv(run: seq<State>, i: nat)
    requires IsRun(run) && i < |run|
    ensures Inv(run[i])
  {
    if i > 0 {
      RunInv(run, i - 1);
      assert NextAt(run, i - 1);
      var step :| Enabled(run[i - 1], step) && run[i] == Apply(run[i - 1], step);
      StepInv(run[i - 1], step);
    }
  }

  // ---------------------------------------------------------------- the theorems

  /** A caller that gets a result gets one computed by a leader of its own key for its own fingerprint. */
  lemma ResultsMatchFingerprint(run: seq<State>, i: nat, c: CallerId)
    requires IsRun(run) && i < |run| && c in run[i].callers && run[i].callers[c].state.Got?
    ensures var s := run[i];
            var l := s.callers[c].state.source;
            && l in s.all && s.all[l].key == s.callers[c].key
            && s.all[l].fingerprint == s.callers[c].fingerprint && s.all[l].work == Returned
  {
    RunInv(run, i);
    assert GoodCaller(run[i], c);
  }

  /** An unknown leader is not replaced: it leads its key until it is proved terminal, and callers are turned away. */
  lemma UnknownLeaderStays(run: seq<State>, i: nat, l: LeaderId)
    requires IsRun(run) && i < |run| && l in run[i].all && StateOf(run[i].all[l]) == Doubtful
    ensures run[i].all[l].key in run[i].leaders && run[i].leaders[run[i].all[l].key] == l
    ensures forall c, newcomer :: Enabled(run[i], Look(c, newcomer)) && run[i].callers[c].key == run[i].all[l].key ==>
              Apply(run[i], Look(c, newcomer)) == WithCaller(run[i], c, TurnedAway)
  {
    RunInv(run, i);
    assert Owned(run[i], l);
  }

  predicate Busy(s: State, l: LeaderId) {
    l in s.all && s.all[l].work == InProgress
  }

  /** No key has two leaders with unsettled work. */
  ghost predicate OneWorkPerKey(s: State) {
    forall a, b :: Busy(s, a) && Busy(s, b) && s.all[a].key == s.all[b].key ==> a == b
  }

  /** Every owner was given the budget v. */
  predicate BudgetsAre(s: State, v: int) {
    (forall l :: l in s.all ==> s.all[l].budget == v) && (forall c :: c in s.callers ==> s.callers[c].budget == v)
  }

  /** The budget passes the range check of the wait, or fails before work() starts. */
  predicate SafeBudget(budget: int) {
    budget >= 0 || budget < -2 * DATE_LIMIT
  }

  lemma OneWorkWithBudgets(s: State)
    requires Inv(s) && forall l :: l in s.all ==> SafeBudget(s.all[l].budget)
    ensures OneWorkPerKey(s)
  {
    forall a, b | Busy(s, a) && Busy(s, b) && s.all[a].key == s.all[b].key ensures a == b {
      assert Owned(s, a) && Owned(s, b);
    }
  }

  /** In every run with safe budgets, at most one work() per key is unsettled at any time. */
  lemma Singleflight(run: seq<State>, i: nat)
    requires IsRun(run) && i < |run| && forall l :: l in run[i].all ==> SafeBudget(run[i].all[l].budget)
    ensures OneWorkPerKey(run[i])
  {
    RunInv(run, i);
    OneWorkWithBudgets(run[i]);
  }

  ghost predicate AllBudgets(run: seq<State>, v: int) {
    forall i :: 0 <= i < |run| ==> BudgetsAre(run[i], v)
  }

  ghost predicate AlwaysOneWork(run: seq<State>) {
    forall i :: 0 <= i < |run| ==> OneWorkPerKey(run[i])
  }

  const SAMPLE := Record("o", "t", "i", "w", 0, Ensure, WritableScope("s", "m", "n", "w", "e", "c"),
                         Reserved, Pending, 0, None, None, None, None)

  /** A time at which the deadline of this budget is still a date. */
  function StartingTime(v: int): int {
    if v >= -DATE_LIMIT then 0 else -DATE_LIMIT - v
  }

  function Begun(): Op {
    AcceptReservation(Create(SAMPLE), SAMPLE)
  }

  function Abandoned(): Op {
    Proved(Begun(), NeverDispatchedClaim(Begun()), 0, false)
  }

  function Owner(v: int, op: Option<Op>, work: Work, task: Task): Leader {
    Leader("k", "f", v, op, work, task)
  }

  function Client(v: int, state: CallerState): Caller {
    Caller("k", "f", v, state)
  }

  /** The states of a run in which a negative budget lets a second work() start beside the first. */
  function Overlapping(v: int): seq<State> {
    var c0 := map[0 := Client(v, Leading(0))];
    var c1 := map[0 := Client(v, Leading(0)), 1 := Client(v, Entering)];
    var c2 := map[0 := Client(v, Leading(0)), 1 := Client(v, Leading(1))];
    var orphan := Owner(v, Some(Abandoned()), InProgress, Rejected);
    [INIT,
     State(map[], map[], map[0 := Client(v, Entering)]),
     State(map["k" := 0], map[0 := Owner(v, None, Idle, Unsettled)], c0),
     State(map["k" := 0], map[0 := Owner(v, Some(Begun()), Idle, Unsettled)], c0),
     State(map["k" := 0], map[0 := Owner(v, Some(Begun()), InProgress, Unsettled)], c0),
     State(map["k" := 0], map[0 := orphan], c0),
     State(map["k" := 0], map[0 := orphan], c1),
     State(map[], map[0 := orphan], c1),
     State(map["k" := 1], map[0 := orphan, 1 := Owner(v, None, Idle, Unsettled)], c2),
     State(map["k" := 1], map[0 := orphan, 1 := Owner(v, Some(Begun()), Idle, Unsettled)], c2),
     State(map["k" := 1], map[0 := orphan, 1 := Owner(v, Some(Begun()), InProgress, Unsettled)], c2)]
  }

  function OverlappingStep(v: int, i: nat): Step {
    if i == 0 then Call(0, "k", "f", v)
    else if i == 1 then Look(0, 0)
    else if i == 2 then Move(0, BeginOk(SAMPLE))
    else if i == 3 then Move(0, StartWork(StartingTime(v)))
    else if i == 4 then Move(0, BadBudget(0, false))
    else if i == 5 then Call(1, "k", "f", v)
    else if i <= 7 then Look(1, 1)
    else if i == 8 then Move(1, BeginOk(SAMPLE))
    else Move(1, StartWork(StartingTime(v)))
  }

  predicate OverlappingLink(v: int, i: nat)
    requires i < 10
  {
    var s, step := Overlapping(v)[i], OverlappingStep(v, i);
    Enabled(s, step) && Overlapping(v)[i + 1] == Apply(s, step)
  }

  /** complete accepts the claim for an operation that has only begun, and its record becomes terminal. */
  lemma ClaimIsAccepted()
    ensures ClaimHolds(Begun(), NeverDispatchedClaim(Begun()), false)
    ensures !IsTerminal(Begun().record) && Begun().record.resource != Unknown && !Begun().aborted
    ensures IsTerminal(Abandoned().record)
  {}

  lemma BeginningMoves(v: int)
    requires -2 * DATE_LIMIT <= v < 0
    ensures var l := Owner(v, None, Idle, Unsettled);
            && MoveEnabled(l, BeginOk(SAMPLE)) && Moved(l, BeginOk(SAMPLE)) == Owner(v, Some(Begun()), Idle, Unsettled)
    ensures var l := Owner(v, Some(Begun()), Idle, Unsettled);
            && MoveEnabled(l, StartWork(StartingTime(v)))
            && Moved(l, StartWork(StartingTime(v))) == Owner(v, Some(Begun()), InProgress, Unsettled)
    ensures var l := Owner(v, Some(Begun()), InProgress, Unsettled);
            && MoveEnabled(l, BadBudget(0, false)) && Moved(l, BadBudget(0, false)) == Owner(v, Some(Abandoned()), InProgress, Rejected)
    ensures StateOf(Owner(v, Some(Abandoned()), InProgress, Rejected)) == Ended
  {
    ClaimIsAccepted();
  }

  /** A caller comes and finds no leader. */
  lemma OverlappingEntry(v: int, i: nat)
    requires i < 2
    ensures OverlappingLink(v, i)
  {}

  lemma OverlappingFirstWork(v: int, i: nat)
    requires -2 * DATE_LIMIT <= v < 0 && 2 <= i < 5
    ensures OverlappingLink(v, i)
  {
    BeginningMoves(v);
  }

  /** A second caller comes, drops the ended leader and leads. */
  lemma OverlappingReentry(v: int, i: nat)
    requires -2 * DATE_LIMIT <= v < 0 && 5 <= i < 8
    ensures OverlappingLink(v, i)
  {
    BeginningMoves(v);
  }

  lemma OverlappingSecondWork(v: int, i: nat)
    requires -2 * DATE_LIMIT <= v < 0 && 8 <= i < 10
    ensures OverlappingLink(v, i)
  {
    BeginningMoves(v);
  }

  /** For every negative budget with which a deadline can still be a date, some run overlaps two work() on one key. */
  lemma OverlappingRun(v: int)
    requires -2 * DATE_LIMIT <= v < 0
    ensures IsRun(Overlapping(v)) && AllBudgets(Overlapping(v), v) && !AlwaysOneWork(Overlapping(v))
  {
    var run := Overlapping(v);
    forall i | 0 <= i < |run| - 1 ensures NextAt(run, i) {
      if i < 2 { OverlappingEntry(v, i); }
      else if i < 5 { OverlappingFirstWork(v, i); }
      else if i < 8 { OverlappingReentry(v, i); }
      else { OverlappingSecondWork(v, i); }
      assert OverlappingLink(v, i);
    }
    assert Busy(run[10], 0) && Busy(run[10], 1) && run[10].all[0].key == run[10].all[1].key;
    assert !OneWorkPerKey(run[10]);
  }

  /**
   * Singleflight holds in all runs exactly when the owner's budget is not negative, or so far below
   * zero that no deadline is a date and work() never starts. In between the range check of the wait
   * fails after work() has started; the failure is settled as never dispatched, the leader is dropped,
   * and the next caller starts a second work().
   */
  lemma SingleflightIffBudget(v: int)
    ensures (forall run :: IsRun(run) && AllBudgets(run, v) ==> AlwaysOneWork(run)) <==> v >= 0 || v < -2 * DATE_LIMIT
  {
    if -2 * DATE_LIMIT <= v < 0 {
      OverlappingRun(v);
    } else {
      forall run | IsRun(run) && AllBudgets(run, v) ensures AlwaysOneWork(run) {
        forall i | 0 <= i < |run| ensures OneWorkPerKey(run[i]) {
          assert BudgetsAre(run[i], v);
          Singleflight(run, i);
        }
      }
    }
  }
}
