/** The run-level guarantees of the ownership protocol. */
module OwnershipTheorems {
  import opened Text
  import opened OwnershipState
  import opened OwnershipJournal
  import opened OwnedOperations
  import opened OwnershipProtocol
  import opened OwnershipSafety

  lemma InitInv()
    ensures Inv(INIT)
  {}

  lemma StepInv(s: State, step: Step)
    requires Inv(s) && Enabled(s, step)
    ensures Inv(Apply(s, step))
  {
    if step.SendReserve? || step.SendUpdate? || step.Retry? {
      SendingStepInv(s, step);
    } else if step.Local? || step.Begin? {
      OwnerStepInv(s, step);
    } else {
      WorldStepInv(s, step);
    }
  }

  lemma SendingStepInv(s: State, step: Step)
    requires Inv(s) && Enabled(s, step) && (step.SendReserve? || step.SendUpdate? || step.Retry?)
    ensures Inv(Apply(s, step))
  {
    if step.SendReserve? { SendReserveInv(s, step.id); }
    else if step.SendUpdate? { SendUpdateInv(s, step.id); }
    else { RetryInv(s, step.id); }
  }

  lemma OwnerStepInv(s: State, step: Step)
    requires Inv(s) && Enabled(s, step) && (step.Local? || step.Begin?)
    ensures Inv(Apply(s, step))
  {
    if step.Local? { AgentStepInv(s, step.id, step.move); } else { BeginInv(s, step.record); }
  }

  lemma WorldStepInv(s: State, step: Step)
    requires Inv(s) && Enabled(s, step) && (step.Settle? || step.Commit? || step.Issue? || step.Vanish?)
    ensures Inv(Apply(s, step))
  {
    if step.Settle? { SettleInv(s, step.id, step.read, step.evidence); }
    else if step.Commit? { CommitInv(s, step.write); }
    else if step.Issue? { IssueInv(s, step.document); }
    else { VanishInv(s, step.uid); }
  }

  lemma {:induction false} RunInv(run: seq<State>, i: nat)
    requires IsRun(run) && i < |run|
    ensures Inv(run[i])
  {
    if i == 0 {
      InitInv();
    } else {
      RunInv(run, i - 1);
      assert NextAt(run, i - 1);
      var step :| Enabled(run[i - 1], step) && run[i] == Apply(run[i - 1], step);
      StepInv(run[i - 1], step);
    }
  }

  // ---------------------------------------------------------------- histories only grow

  predicate HistoryExtends(s: State, s': State) {
    forall id :: id in s.hist ==> id in s'.hist && s.hist[id] <= s'.hist[id]
  }

  /** Only a commit touches the journal. */
  lemma OnlyCommitsWrite(s: State, step: Step)
    requires Enabled(s, step) && !step.Commit?
    ensures Apply(s, step).records == s.records && Apply(s, step).hist == s.hist
  {
    if step.SendReserve? { ReservingWritesNothing(s, step.id); }
    else if step.SendUpdate? { UpdatingWritesNothing(s, step.id); }
  }

  lemma ReservingWritesNothing(s: State, id: Id)
    requires id in s.agents
    ensures AfterSendReserve(s, id).records == s.records && AfterSendReserve(s, id).hist == s.hist
  {}

  /** What a reservation step leaves of each agent. */
  predicate LeftByReserving(s: State, x: Id, id: Id, a': Agent)
    requires x in s.agents && id in s.agents
  {
    || a' == s.agents[id]
    || (x == id && (|| a' == s.agents[x].(reserveWrite := Some(s.nextWrite))
                    || a' == RefusedReserve(s.agents[x], true) || a' == RefusedReserve(s.agents[x], false)))
  }

  lemma ReservingLeaves(s: State, x: Id, id: Id)
    requires x in s.agents && id in s.agents
    ensures id in AfterSendReserve(s, x).agents && LeftByReserving(s, x, id, AfterSendReserve(s, x).agents[id])
  {}

  /** What an update step leaves of each agent. */
  lemma UpdatingLeaves(s: State, x: Id, id: Id)
    requires x in s.agents && id in s.agents && s.agents[x].job.UpdateJob?
    ensures id in AfterSendUpdate(s, x).agents
    ensures var a, a' := s.agents[id], AfterSendUpdate(s, x).agents[id];
            || a' == a
            || (x == id && a.job.UpdateJob?
                && (a' == a.(job := a.job.(write := Some(s.nextWrite))) || a' == Broken(a, a.job.request.tag)))
  {}

  lemma UpdatingWritesNothing(s: State, id: Id)
    requires id in s.agents && s.agents[id].job.UpdateJob?
    ensures AfterSendUpdate(s, id).records == s.records && AfterSendUpdate(s, id).hist == s.hist
  {}

  lemma CommitExtendsHistory(s: State, n: nat)
    requires Inv(s) && n in s.inflight && s.inflight[n].base == s.version
    ensures HistoryExtends(s, AfterCommit(s, n))
  {
    assert GoodWrite(s, n, s.inflight[n]);
    CommitExtends(s, n);
  }

  lemma StepExtendsHistory(s: State, step: Step)
    requires Inv(s) && Enabled(s, step)
    ensures HistoryExtends(s, Apply(s, step))
  {
    if step.Commit? { CommitExtendsHistory(s, step.write); } else { OnlyCommitsWrite(s, step); }
  }

  lemma NextExtendsHistory(run: seq<State>, i: nat)
    requires IsRun(run) && i + 1 < |run|
    ensures HistoryExtends(run[i], run[i + 1])
  {
    RunInv(run, i);
    assert NextAt(run, i);
    var step :| Enabled(run[i], step) && run[i + 1] == Apply(run[i], step);
    StepExtendsHistory(run[i], step);
  }

  lemma HistoryExtendsTransitive(s: State, m: State, s': State)
    requires HistoryExtends(s, m) && HistoryExtends(m, s')
    ensures HistoryExtends(s, s')
  {}

  lemma {:induction false} RunExtendsHistory(run: seq<State>, i: nat, j: nat)
    requires IsRun(run) && i <= j < |run|
    ensures HistoryExtends(run[i], run[j])
  {
    if i < j {
      RunExtendsHistory(run, i, j - 1);
      NextExtendsHistory(run, j - 1);
      HistoryExtendsTransitive(run[i], run[j - 1], run[j]);
    }
  }

  /** Along one record's versions: identity is fixed, outcomes settle once, terminal is final. */
  lemma {:induction false} VersionsAgree(a: Agent, gone: set<Id>, versions: seq<Record>, k: nat, m: nat)
    requires Chain(a, gone, versions) && k <= m < |versions|
    ensures SameIdentity(versions[m], versions[k])
    ensures OutcomeStep(versions[k].outcome, versions[m].outcome)
    ensures IsTerminal(versions[k]) ==> IsTerminal(versions[m])
  {
    if k < m {
      VersionsAgree(a, gone, versions, k, m - 1);
      assert StepAt(versions, m);
    }
  }

  // ---------------------------------------------------------------- what a caller was told stands

  /** The outcome the owner of an operation has settled on; Pending before that. */
  function CallerOutcome(s: State, id: Id): Outcome {
    if id in s.agents then s.agents[id].op.callerOutcome else Pending
  }

  predicate OutcomeKept(a: Agent, a': Agent) {
    a.op.callerOutcome != Pending ==> a'.op.callerOutcome == a.op.callerOutcome
  }

  lemma FinishedKeepsOutcome(a: Agent, tag: Tag)
    ensures OutcomeKept(a, Finished(a, tag)) && OutcomeKept(a, Broken(a, tag))
  {
    if a.op.callerOutcome != Pending { OutcomeSettlesOnce(a.op, Failed, false, a.base, false, false, false); }
  }

  lemma RefusedKeepsOutcome(a: Agent, mayHaveCommitted: bool, blocked: bool)
    ensures a.op.callerOutcome != Pending ==>
              SettleBeginFailure(a.op, mayHaveCommitted, blocked).callerOutcome == a.op.callerOutcome
    ensures OutcomeKept(a, RefusedReserve(a, blocked))
  {
    if a.op.callerOutcome != Pending {
      OutcomeSettlesOnce(a.op, Failed, false, a.base, false, mayHaveCommitted, blocked);
      OutcomeSettlesOnce(a.op, Failed, false, a.base, false, false, blocked);
    }
  }

  /** The moves that run a queued persist. */
  lemma JobKeepsOutcome(a: Agent, move: Move)
    requires move.StartJob? || move.Acknowledge? || move.GiveUp?
    ensures OutcomeKept(a, AgentAfter(a, move))
  {
    if move.StartJob? {
      if |a.queue| > 0 { FinishedKeepsOutcome(a.(queue := a.queue[1..]), a.queue[0].tag); }
    } else if a.job.UpdateJob? {
      if move.GiveUp? {
        FinishedKeepsOutcome(a, a.job.request.tag);
      } else {
        AcknowledgedKeepsOutcome(a, move.expired);
      }
    } else {
      RefusedKeepsOutcome(a, false, false);
    }
  }

  lemma AcknowledgedKeepsOutcome(a: Agent, expired: bool)
    requires a.job.UpdateJob?
    ensures OutcomeKept(a, AgentAfter(a, Acknowledge(expired)))
  {
    var stored := a.(op := PersistCommitted(a.op, a.job.next, a.job.request.proved, expired), job := NoJob);
    if a.op.callerOutcome != Pending {
      OutcomeSettlesOnce(a.op, Failed, false, a.job.next, a.job.request.proved, expired, false);
    }
    FinishedKeepsOutcome(stored, a.job.request.tag);
  }

  lemma MoveKeepsOutcome(a: Agent, move: Move)
    ensures OutcomeKept(a, AgentAfter(a, move))
  {
    if move.StartJob? || move.Acknowledge? || move.GiveUp? {
      JobKeepsOutcome(a, move);
    } else if move.ReserveTimeout? {
      RefusedKeepsOutcome(a, true, false);
    } else if a.op.callerOutcome != Pending {
      if move.Complete? { OutcomeSettlesOnce(a.op, move.outcome, false, a.base, false, false, false); }
      else if move.GoUnknown? { OutcomeSettlesOnce(a.op, Failed, move.timedOut, a.base, false, false, false); }
      else if move.Uncertain? || move.Cancel? { OutcomeSettlesOnce(a.op, Failed, false, a.base, false, false, false); }
    }
  }

  lemma ReservingKeepsOutcome(s: State, id: Id, x: Id)
    requires id in s.agents && x in s.agents
    ensures x in AfterSendReserve(s, id).agents && OutcomeKept(s.agents[x], AfterSendReserve(s, id).agents[x])
  {
    RefusedKeepsOutcome(s.agents[id], false, ReserveResult(s, id).Blocked?);
  }

  lemma UpdatingKeepsOutcome(s: State, id: Id, x: Id)
    requires id in s.agents && x in s.agents && s.agents[id].job.UpdateJob?
    ensures x in AfterSendUpdate(s, id).agents && OutcomeKept(s.agents[x], AfterSendUpdate(s, id).agents[x])
  {
    FinishedKeepsOutcome(s.agents[id], s.agents[id].job.request.tag);
  }

  lemma StepKeepsOutcome(s: State, step: Step, x: Id)
    requires Enabled(s, step) && x in s.agents
    ensures x in Apply(s, step).agents && OutcomeKept(s.agents[x], Apply(s, step).agents[x])
  {
    if step.Local? { MoveKeepsOutcome(s.agents[step.id], step.move); }
    else if step.SendReserve? { ReservingKeepsOutcome(s, step.id, x); }
    else if step.SendUpdate? { UpdatingKeepsOutcome(s, step.id, x); }
  }

  /** In every run, once an operation's outcome has settled for its caller it stays, whatever evidence comes later. */
  lemma {:induction false} OutcomeOverRuns(run: seq<State>, i: nat, j: nat, id: Id)
    requires IsRun(run) && i <= j < |run| && CallerOutcome(run[i], id) != Pending
    ensures CallerOutcome(run[j], id) == CallerOutcome(run[i], id)
  {
    if i < j {
      OutcomeOverRuns(run, i, j - 1, id);
      assert NextAt(run, j - 1);
      var step :| Enabled(run[j - 1], step) && run[j] == Apply(run[j - 1], step);
      StepKeepsOutcome(run[j - 1], step, id);
    }
  }

  // ---------------------------------------------------------------- terminal rows have no process

  /** The remote attempt of this record has no live process. */
  predicate Quiescent(s: State, id: Id) {
    id in s.agents ==> s.agents[id].remote != Live
  }

  /**
   * In every run, with any number of owners, lost replies, late receipts and a racing reconciler:
   * once a row of the journal is stopped or not_started, its attempt has no live process then or at
   * any later time, whether or not the row has since been compacted away.
   */
  lemma TerminalRowsHaveNoProcess(run: seq<State>, i: nat, j: nat, r: Record)
    requires IsRun(run) && i <= j < |run| && r in run[i].records && IsTerminal(r)
    ensures r.operationId in run[j].agents && Quiescent(run[j], r.operationId)
  {
    RowStaysKnown(run, i, j, r);
    RunInv(run, j);
    VersionIsTruthful(run[j], r.operationId, r.revision);
  }

  lemma VersionIsTruthful(s: State, id: Id, k: nat)
    requires GoodAgents(s) && GoodHistory(s) && id in s.hist && k < |s.hist[id]|
    ensures id in s.agents && Good(s.agents[id], s.gone, s.hist[id][k])
    ensures IsTerminal(s.hist[id][k]) ==> Quiescent(s, id)
  {
    assert Chain(s.agents[id], s.gone, s.hist[id]);
    assert GoodAgent(s, id);
  }

  // ---------------------------------------------------------------- the journal as a record of history

  /** Every record ever reserved is still in the journal or ended terminal. */
  predicate NothingLost(s: State) {
    forall id :: id in s.hist && |s.hist[id]| > 0 ==> Kept(s, id)
  }

  /** Everything in the journal, or on its way there, passed validation. */
  ghost predicate AllValid(s: State) {
    forall list :: ValidList(s, list)
  }

  /** Names one list of the state: the stored one, or the one of a write in flight. */
  datatype ListName = Stored | Sent(write: nat)

  ghost predicate ValidList(s: State, list: ListName) {
    match list
    case Stored => ValidRecords(s.records)
    case Sent(n) => n in s.inflight ==> ValidRecords(s.inflight[n].next)
  }

  lemma EmptyIsValid()
    ensures ValidRecords([])
  {
    assert forall path :: IsAncestry([], path) ==> |path| <= 1 by {
      forall path | IsAncestry([], path) ensures |path| <= 1 {
        if |path| > 1 { AncestryContinues([], path, 0); assert false; }
      }
    }
  }

  lemma InitValid()
    ensures AllValid(INIT)
  {
    EmptyIsValid();
  }

  lemma AddWriteKeepsValid(s: State, w: Write)
    requires AllValid(s) && ValidRecords(w.next)
    ensures AllValid(WithWrite(s, w))
  {
    forall list ensures ValidList(WithWrite(s, w), list) { assert ValidList(s, list); }
  }

  /** A step that sends nothing: every list of the new state stood in the old one. */
  lemma NothingSentKeepsValid(s: State, step: Step)
    requires AllValid(s) && Enabled(s, step) && !step.SendReserve? && !step.SendUpdate? && !step.Settle?
    ensures AllValid(Apply(s, step))
  {
    var s' := Apply(s, step);
    forall list ensures ValidList(s', list) {
      assert ValidList(s, list);
      if step.Commit? && list.Stored? { assert ValidList(s, Sent(step.write)); }
    }
  }

  lemma StepKeepsValid(s: State, step: Step)
    requires AllValid(s) && Enabled(s, step)
    ensures AllValid(Apply(s, step))
  {
    if step.SendReserve? {
      SendReserveKeepsValid(s, step.id);
    } else if step.SendUpdate? {
      SendUpdateKeepsValid(s, step.id);
    } else if step.Settle? {
      AddWriteKeepsValid(s, UpdateWrite(s, SettleNext(s, s.hist[step.id][step.read], step.evidence).value));
    } else {
      NothingSentKeepsValid(s, step);
    }
  }

  lemma SameListsKeepValid(s: State, s': State)
    requires AllValid(s) && s'.records == s.records && s'.inflight == s.inflight
    ensures AllValid(s')
  {
    forall list ensures ValidList(s', list) { assert ValidList(s, list); }
  }

  lemma SendReserveKeepsValid(s: State, id: Id)
    requires AllValid(s) && id in s.agents
    ensures AllValid(AfterSendReserve(s, id))
  {
    var r := ReserveResult(s, id);
    if r.Changed? && ValidRecords(r.records) {
      var s1 := WithAgent(s, id, s.agents[id].(reserveWrite := Some(s.nextWrite)));
      SameListsKeepValid(s, s1);
      AddWriteKeepsValid(s1, Write(s.version, s.records, r.records, r.result, None));
    } else {
      SameListsKeepValid(s, AfterSendReserve(s, id));
    }
  }

  lemma SendUpdateKeepsValid(s: State, id: Id)
    requires AllValid(s) && id in s.agents && s.agents[id].job.UpdateJob?
    ensures AllValid(AfterSendUpdate(s, id))
  {
    var next := s.agents[id].job.next;
    var r := UpdateResult(s, next);
    if r.Changed? && ValidRecords(r.records) {
      AddWriteKeepsValid(s, UpdateWrite(s, next));
      SameListsKeepValid(WithWrite(s, UpdateWrite(s, next)), AfterSendUpdate(s, id));
    } else {
      SameListsKeepValid(s, AfterSendUpdate(s, id));
    }
  }

  /** The newest version of a record is terminal or stands in the journal. */
  predicate Kept(s: State, id: Id)
    requires id in s.hist && |s.hist[id]| > 0
  {
    var last := s.hist[id][|s.hist[id]| - 1];
    IsTerminal(last) || last in s.records
  }

  lemma CommitKeeps(s: State, n: nat, x: Id)
    requires GoodAgents(s) && GoodHistory(s) && GoodRecords(s) && NothingLost(s)
    requires n in s.inflight && s.inflight[n].base == s.version && GoodWrite(s, n, s.inflight[n])
    requires x in AfterCommit(s, n).hist && |AfterCommit(s, n).hist[x]| > 0
    ensures Kept(AfterCommit(s, n), x)
  {
    CommitExtends(s, n);
    if x == s.inflight[n].subject.operationId {
      SubjectIsWritten(s, n, s.inflight[n]);
    } else {
      assert Kept(s, x);
      var last := s.hist[x][|s.hist[x]| - 1];
      assert Chain(s.agents[x], s.gone, s.hist[x]) && GoodAgent(s, x);
      LiveRowIsKept(s, n, s.inflight[n], last);
    }
  }

  lemma CommitLosesNothing(s: State, n: nat)
    requires GoodAgents(s) && GoodHistory(s) && GoodRecords(s) && GoodWrites(s) && NothingLost(s)
    requires n in s.inflight && s.inflight[n].base == s.version
    ensures NothingLost(AfterCommit(s, n))
  {
    assert GoodWrite(s, n, s.inflight[n]);
    forall x | x in AfterCommit(s, n).hist && |AfterCommit(s, n).hist[x]| > 0 ensures Kept(AfterCommit(s, n), x) {
      CommitKeeps(s, n, x);
    }
  }

  lemma SubjectIsWritten(s: State, n: nat, w: Write)
    requires GoodWrite(s, n, w)
    ensures w.subject in w.next
  {
    match w.expected {
      case None => assert w.next[|w.next| - 1] == w.subject;
      case Some(_) => assert w.next[IndexOf(w.snapshot, w.subject.operationId)] == w.subject;
    }
  }

  lemma LiveRowIsKept(s: State, n: nat, w: Write, r: Record)
    requires GoodWrite(s, n, w) && w.base == s.version
    ensures r in s.records && !IsTerminal(r) && r.operationId != w.subject.operationId ==> r in w.next
  {
    if r in s.records && !IsTerminal(r) && r.operationId != w.subject.operationId {
      match w.expected {
        case None => CompactedMembers(s.records, r);
        case Some(_) =>
          var i :| 0 <= i < |s.records| && s.records[i] == r;
          assert w.next[i] == r;
      }
    }
  }

  lemma StepLosesNothing(s: State, step: Step)
    requires Inv(s) && NothingLost(s) && Enabled(s, step)
    ensures NothingLost(Apply(s, step))
  {
    if step.Commit? { CommitLosesNothing(s, step.write); } else { OnlyCommitsWrite(s, step); }
  }

  lemma NextKeepsValid(run: seq<State>, i: nat)
    requires IsRun(run) && i + 1 < |run| && AllValid(run[i])
    ensures AllValid(run[i + 1])
  {
    assert NextAt(run, i);
    var step :| Enabled(run[i], step) && run[i + 1] == Apply(run[i], step);
    StepKeepsValid(run[i], step);
  }

  lemma {:induction false} RunValid(run: seq<State>, i: nat)
    requires IsRun(run) && i < |run|
    ensures AllValid(run[i])
  {
    if i == 0 {
      InitValid();
    } else {
      RunValid(run, i - 1);
      NextKeepsValid(run, i - 1);
    }
  }

  /** At every time the stored journal passes validation. */
  lemma JournalIsValid(run: seq<State>, i: nat)
    requires IsRun(run) && i < |run|
    ensures ValidRecords(run[i].records)
  {
    RunValid(run, i);
    assert ValidList(run[i], Stored);
  }

  lemma NextLosesNothing(run: seq<State>, i: nat)
    requires IsRun(run) && i + 1 < |run| && NothingLost(run[i])
    ensures NothingLost(run[i + 1])
  {
    RunInv(run, i);
    assert NextAt(run, i);
    var step :| Enabled(run[i], step) && run[i + 1] == Apply(run[i], step);
    StepLosesNothing(run[i], step);
  }

  lemma {:induction false} RunLosesNothing(run: seq<State>, i: nat)
    requires IsRun(run) && i < |run|
    ensures NothingLost(run[i])
  {
    if i > 0 {
      RunLosesNothing(run, i - 1);
      NextLosesNothing(run, i - 1);
    }
  }

  /** What a row may become: same identity, no smaller revision, a settled outcome kept, terminal for good. */
  predicate Later(r: Record, r': Record) {
    && SameIdentity(r', r) && r'.revision >= r.revision
    && (r.outcome != Pending ==> r'.outcome == r.outcome)
    && (IsTerminal(r) ==> IsTerminal(r'))
    && (r'.revision == r.revision ==> r' == r)
  }

  /**
   * The journal over whole runs. At every time it is valid, and so is every list on its way there: at
   * most 128 rows, unique ids, acyclic ancestry. A row present at time i is at any later time j still present, or its record ended
   * terminal. When present it has the same identity, no smaller revision, the same outcome once that
   * had left pending, and is terminal if it was.
   */
  lemma JournalOverRuns(run: seq<State>, i: nat, j: nat, r: Record)
    requires IsRun(run) && i <= j < |run| && r in run[i].records
    ensures AllValid(run[j])
    ensures forall r' :: r' in run[j].records && r'.operationId == r.operationId ==> Later(r, r')
    ensures r.operationId in run[j].hist && r.revision < |run[j].hist[r.operationId]|
    ensures r.operationId !in Ids(run[j].records) ==>
              IsTerminal(run[j].hist[r.operationId][|run[j].hist[r.operationId]| - 1])
  {
    RowStaysKnown(run, i, j, r);
    RowsAreLater(run, i, j, r);
    DroppedRowEnded(run, j, r.operationId);
    RunValid(run, j);
  }

  lemma RowsAreLater(run: seq<State>, i: nat, j: nat, r: Record)
    requires IsRun(run) && i <= j < |run| && r in run[i].records
    ensures forall r' :: r' in run[j].records && r'.operationId == r.operationId ==> Later(r, r')
  {
    RowStaysKnown(run, i, j, r);
    forall r' | r' in run[j].records && r'.operationId == r.operationId ensures Later(r, r') {
      RunInv(run, j);
      LaterVersion(run[j], r, r');
    }
  }

  lemma DroppedRowEnded(run: seq<State>, j: nat, id: Id)
    requires IsRun(run) && j < |run| && id in run[j].hist
    ensures |run[j].hist[id]| > 0
    ensures id !in Ids(run[j].records) ==> IsTerminal(run[j].hist[id][|run[j].hist[id]| - 1])
  {
    RunLosesNothing(run, j);
    RunInv(run, j);
    DroppedIsTerminal(run[j], id);
  }

  lemma RowStaysKnown(run: seq<State>, i: nat, j: nat, r: Record)
    requires IsRun(run) && i <= j < |run| && r in run[i].records
    ensures r.operationId in run[j].hist && r.revision < |run[j].hist[r.operationId]|
    ensures run[j].hist[r.operationId][r.revision] == r
  {
    RunInv(run, i);
    RunExtendsHistory(run, i, j);
    var k :| 0 <= k < |run[i].records| && run[i].records[k] == r;
    assert RowIsLatest(run[i], run[i].records[k]);
  }

  lemma DroppedIsTerminal(s: State, id: Id)
    requires GoodAgents(s) && GoodHistory(s) && NothingLost(s) && id in s.hist
    ensures |s.hist[id]| > 0
    ensures id !in Ids(s.records) ==> IsTerminal(s.hist[id][|s.hist[id]| - 1])
  {
    assert GoodAgent(s, id) && Chain(s.agents[id], s.gone, s.hist[id]);
    assert Kept(s, id);
  }

  lemma LaterVersion(s: State, r: Record, r': Record)
    requires Inv(s) && r' in s.records && r'.operationId == r.operationId
    requires r.operationId in s.hist && r.revision < |s.hist[r.operationId]| && s.hist[r.operationId][r.revision] == r
    ensures Later(r, r')
  {
    var k :| 0 <= k < |s.records| && s.records[k] == r';
    assert RowIsLatest(s, s.records[k]);
    VersionsAgree(s.agents[r.operationId], s.gone, s.hist[r.operationId], r.revision, r'.revision);
  }

  /** One step changes at most one row, and that row by exactly one revision. */
  lemma OneRowPerStep(s: State, step: Step, r: Record, r': Record)
    requires Inv(s) && Enabled(s, step) && r in s.records && r' in Apply(s, step).records && r'.operationId == r.operationId
    ensures r' == r || (step.Commit? && r'.revision == r.revision + 1 && r' == s.inflight[step.write].subject)
  {
    if step.Commit? {
      OneRowPerCommit(s, step.write, r, r');
    } else {
      OnlyCommitsWrite(s, step);
      SameRow(s, r, r');
    }
  }

  lemma SameRow(s: State, r: Record, r': Record)
    requires UniqueIds(s.records) && r in s.records && r' in s.records && r'.operationId == r.operationId
    ensures r' == r
  {
    var k :| 0 <= k < |s.records| && s.records[k] == r;
    var m :| 0 <= m < |s.records| && s.records[m] == r';
  }

  lemma OneRowPerCommit(s: State, n: nat, r: Record, r': Record)
    requires Inv(s) && n in s.inflight && s.inflight[n].base == s.version
    requires r in s.records && r' in s.inflight[n].next && r'.operationId == r.operationId
    ensures r' == r || (r'.revision == r.revision + 1 && r' == s.inflight[n].subject)
  {
    assert GoodWrite(s, n, s.inflight[n]);
    if r' == s.inflight[n].subject {
      CommitExtends(s, n);
      var k :| 0 <= k < |s.records| && s.records[k] == r;
      assert RowIsLatest(s, s.records[k]);
    } else {
      CommitRows(s, n, r');
      SameRow(s, r, r');
    }
  }

  // ---------------------------------------------------------------- admission

  /**
   * A row enters the journal only while no conflicting row is unknown or stop_requested, and while
   * every live conflicting row of another owner is background-owned.
   */
  lemma NoReservationBesideUnresolved(run: seq<State>, i: nat, r: Record, other: Record)
    requires IsRun(run) && i + 1 < |run|
    requires r in run[i + 1].records && r.operationId !in Ids(run[i].records)
    requires other in run[i].records && !IsTerminal(other) && AdmissionScopeConflicts(other, r.scope) == Some(true)
    ensures other.resource != Unknown && other.resource != StopRequested
    ensures other.ownerId != r.ownerId ==> other.resource == BackgroundOwned
  {
    RunInv(run, i);
    assert NextAt(run, i);
    var step :| Enabled(run[i], step) && run[i + 1] == Apply(run[i], step);
    InsertedRow(run[i], step, r);
    var k :| 0 <= k < |run[i].records| && run[i].records[k] == other;
  }

  lemma InsertedRow(s: State, step: Step, r: Record)
    requires Inv(s) && Enabled(s, step) && r in Apply(s, step).records && r.operationId !in Ids(s.records)
    ensures AdmittedAgainst(s.records, r)
  {
    if step.Commit? {
      InsertedByCommit(s, step.write, r);
    } else {
      OnlyCommitsWrite(s, step);
    }
  }

  lemma InsertedByCommit(s: State, n: nat, r: Record)
    requires GoodRecords(s) && GoodWrites(s) && n in s.inflight && s.inflight[n].base == s.version
    requires r in s.inflight[n].next && r.operationId !in Ids(s.records)
    ensures AdmittedAgainst(s.records, r)
  {
    assert GoodWrite(s, n, s.inflight[n]);
    if r != s.inflight[n].subject { CommitRows(s, n, r); }
  }

  /**
   * At every time, of two rows of different owners on the same sandbox with overlapping paths, the
   * one inserted first is terminal or has been background-owned.
   */
  lemma OwnersExcludeEachOther(run: seq<State>, i: nat, a: Record, b: Record)
    requires IsRun(run) && i < |run| && a in run[i].records && b in run[i].records
    requires a.ownerId != b.ownerId && a.scope.sandboxName == b.scope.sandboxName
    requires ScopesOverlap(a.scope, b.scope) == Some(true)
    ensures a.operationId in run[i].born && b.operationId in run[i].born
    ensures run[i].born[a.operationId] < run[i].born[b.operationId] ==> IsTerminal(a) || a.operationId in run[i].everBackground
  {
    RunInv(run, i);
    RowsExclusive(run[i], a, b);
    var k :| 0 <= k < |run[i].records| && run[i].records[k] == a;
    assert RowIsLatest(run[i], run[i].records[k]);
    var m :| 0 <= m < |run[i].records| && run[i].records[m] == b;
    assert RowIsLatest(run[i], run[i].records[m]);
  }
}
