/** Where the outcomes and the proved resources of the journal's versions come from, over whole runs. */
module OwnershipOutcomes {
  import opened Text
  import opened OwnershipState
  import opened OwnershipJournal
  import opened OwnedOperations
  import opened OwnershipProtocol
  import opened OwnershipSafety
  import opened OwnershipTheorems

  // ---------------------------------------------------------------- the outcome a caller gave first

  /** The outcome this move asks the operation to settle on. */
  predicate Gives(o: Op, move: Move, outcome: Outcome) {
    match move
    case Complete(given, _, _, _) => given == outcome
    case GoUnknown(timedOut) =>
      && (outcome == Cancelled <==> o.aborted)
      && (outcome == TimedOut <==> !o.aborted && timedOut)
      && (outcome == Failed <==> !o.aborted && !timedOut)
    case _ => false
  }

  /** A pending operation settles on exactly what its caller gives. */
  lemma GivenOutcomeSettles(s: State, id: Id, move: Move, outcome: Outcome)
    requires Enabled(s, Local(id, move)) && CallerOutcome(s, id) == Pending && Gives(s.agents[id].op, move, outcome)
    ensures CallerOutcome(Apply(s, Local(id, move)), id) == outcome && outcome != Pending
  {
    if move.Complete? { CompletionDecides(s.agents[id].op, move.outcome, move.proof, move.resource, move.children); }
  }

  lemma FinishedIsSilent(a: Agent, tag: Tag)
    ensures Finished(a, tag).op.callerOutcome == a.op.callerOutcome && Broken(a, tag).op.callerOutcome == a.op.callerOutcome
  {}

  lemma RefusedIsSilent(a: Agent, blocked: bool)
    ensures RefusedReserve(a, blocked).op.callerOutcome == a.op.callerOutcome
  {}

  /** A move that gives no outcome settles none. */
  lemma OtherMovesAreSilent(a: Agent, move: Move)
    requires !move.Complete? && !move.GoUnknown?
    ensures AgentAfter(a, move).op.callerOutcome == a.op.callerOutcome
  {
    match move {
      case StartJob(now) =>
        if |a.queue| > 0 { FinishedIsSilent(a.(queue := a.queue[1..]), a.queue[0].tag); }
      case Acknowledge(expired) =>
        if a.job.UpdateJob? {
          var stored := a.(op := PersistCommitted(a.op, a.job.next, a.job.request.proved, expired), job := NoJob);
          FinishedIsSilent(stored, a.job.request.tag);
        }
      case GiveUp =>
        if a.job.UpdateJob? { FinishedIsSilent(a, a.job.request.tag); }
      case _ =>
    }
  }

  /** And nothing but a caller giving one moves a pending outcome. */
  lemma OnlyGivingSettles(s: State, step: Step, id: Id)
    requires Enabled(s, step) && CallerOutcome(s, id) == Pending && CallerOutcome(Apply(s, step), id) != Pending
    ensures step.Local? && step.id == id && id in s.agents
    ensures Gives(s.agents[id].op, step.move, CallerOutcome(Apply(s, step), id))
  {
    match step {
      case Local(x, move) => if !move.Complete? && !move.GoUnknown? { OtherMovesAreSilent(s.agents[x], move); }
      case SendReserve(x) => ReservingIsSilent(s, x, id);
      case SendUpdate(x) => UpdatingIsSilent(s, x, id);
      case _ =>
    }
  }

  lemma ReservingIsSilent(s: State, x: Id, id: Id)
    requires x in s.agents
    ensures CallerOutcome(AfterSendReserve(s, x), id) == CallerOutcome(s, id)
  {
    RefusedIsSilent(s.agents[x], ReserveResult(s, x).Blocked?);
  }

  lemma UpdatingIsSilent(s: State, x: Id, id: Id)
    requires x in s.agents && s.agents[x].job.UpdateJob?
    ensures CallerOutcome(AfterSendUpdate(s, x), id) == CallerOutcome(s, id)
  {
    FinishedIsSilent(s.agents[x], s.agents[x].job.request.tag);
  }

  /** At time k the caller of a pending operation gave this outcome. */
  ghost predicate GaveOutcome(run: seq<State>, k: nat, id: Id, outcome: Outcome) {
    && k + 1 < |run| && id in run[k].agents && CallerOutcome(run[k], id) == Pending
    && exists move :: Takes(run, k, Local(id, move)) && Gives(run[k].agents[id].op, move, outcome)
  }

  lemma OutcomeFrom(run: seq<State>, i: nat, id: Id)
    requires IsRun(run) && i + 1 < |run| && CallerOutcome(run[i + 1], id) != Pending
    ensures if CallerOutcome(run[i], id) == Pending then GaveOutcome(run, i, id, CallerOutcome(run[i + 1], id))
            else CallerOutcome(run[i + 1], id) == CallerOutcome(run[i], id)
  {
    assert NextAt(run, i);
    var step :| Enabled(run[i], step) && run[i + 1] == Apply(run[i], step);
    if CallerOutcome(run[i], id) == Pending {
      OnlyGivingSettles(run[i], step, id);
      assert Takes(run, i, Local(id, step.move));
    } else {
      StepKeepsOutcome(run[i], step, id);
    }
  }

  /** In every run a settled outcome is exactly the one its caller gave first. */
  lemma {:induction false} OutcomeIsFirstGiven(run: seq<State>, i: nat, id: Id)
    requires IsRun(run) && i < |run| && CallerOutcome(run[i], id) != Pending
    ensures exists k :: 0 <= k < i && GaveOutcome(run, k, id, CallerOutcome(run[i], id))
  {
    assert i > 0;
    OutcomeFrom(run, i - 1, id);
    if CallerOutcome(run[i - 1], id) != Pending { OutcomeIsFirstGiven(run, i - 1, id); }
  }

  // ---------------------------------------------------------------- who writes a version

  /** At time j the owner of v started to persist v: the next queued patch over what it had acknowledged. */
  ghost predicate OwnerWrote(run: seq<State>, j: nat, v: Record) {
    && j + 1 < |run| && v.operationId in run[j].agents
    && var a := run[j].agents[v.operationId];
       |a.queue| > 0
       && exists now :: Takes(run, j, Local(v.operationId, StartJob(now)))
                        && Overwrites(a.op, a.queue[0].patch, a.queue[0].proved, now, v)
  }

  /** What a reconciler that does not hold the operation may write over the version `before`, and on which evidence. */
  predicate SettledOn(s: State, before: Record, evidence: Evidence, v: Record) {
    && before.resource != Stopped && before.resource != NotStarted && before.remoteFence.Some?
    && v == before.(revision := before.revision + 1, resource := v.resource, outcome := v.outcome, updatedAt := v.updatedAt)
    && (before.outcome == Pending ==> v.outcome == Failed)
    && (before.outcome != Pending ==> v.outcome == before.outcome)
    && match evidence
       case ByReceipt(d) =>
         && d in s.documents && SignedFor(before.remoteFence.value, d, v.resource) && Attests(d)
         && (v.resource == Stopped || v.resource == NotStarted || v.resource == BackgroundOwned)
         && v.updatedAt == d.observedAt
       case ByAbsence(at) =>
         && before.sandboxUid.Some? && before.sandboxUid.value in s.gone
         && (before.resource == Running || before.resource == Unknown || before.resource == StopRequested)
         && at >= (if before.dispatchedAt.Some? then before.dispatchedAt.value else before.updatedAt)
         && v.resource == Stopped && v.updatedAt == at
  }

  /** The reconciler writes exactly the versions its evidence supports. */
  lemma SettlingDecides(s: State, before: Record, evidence: Evidence, v: Record)
    ensures SettleNext(s, before, evidence) == Some(v) <==> SettledOn(s, before, evidence, v)
  {
    if evidence.ByReceipt? && before.remoteFence.Some? { ReceiptReads(evidence.document, before.remoteFence.value); }
  }

  ghost predicate ReconcilerWrote(run: seq<State>, j: nat, v: Record) {
    && j + 1 < |run| && v.operationId in run[j].hist
    && exists read: nat, evidence :: Takes(run, j, Settle(v.operationId, read, evidence))
         && v.revision == read + 1 && read < |run[j].hist[v.operationId]|
         && SettledOn(run[j], run[j].hist[v.operationId][read], evidence, v)
  }

  ghost predicate Written(run: seq<State>, i: nat, v: Record) {
    exists j :: 0 <= j < i && (OwnerWrote(run, j, v) || ReconcilerWrote(run, j, v))
  }

  lemma WrittenEarlier(run: seq<State>, i: nat, v: Record)
    requires Written(run, i, v)
    ensures Written(run, i + 1, v)
  {}

  /** The update this agent runs ran before, or its owner starts it with this step. */
  predicate JobExplained(s: State, step: Step, id: Id, next: Record) {
    || (id in s.agents && s.agents[id].job.UpdateJob? && s.agents[id].job.next == next)
    || (&& step.Local? && step.id == id && step.move.StartJob? && id in s.agents && |s.agents[id].queue| > 0
        && var q := s.agents[id].queue[0];
           PersistNext(s.agents[id].op, q.patch, q.proved, step.move.now) == Some(next))
  }

  lemma JobOrigin(s: State, step: Step, id: Id)
    requires Enabled(s, step) && id in Apply(s, step).agents && Apply(s, step).agents[id].job.UpdateJob?
    ensures JobExplained(s, step, id, Apply(s, step).agents[id].job.next)
  {
    match step {
      case Local(x, move) => if x == id { MoveJobOrigin(s.agents[x], move); }
      case SendReserve(x) => ReservingStartsNothing(s, x, id);
      case SendUpdate(x) => UpdatingStartsNothing(s, x, id);
      case _ => OtherStepsStartNothing(s, step, id);
    }
  }

  lemma ReservingStartsNothing(s: State, x: Id, id: Id)
    requires x in s.agents && id in AfterSendReserve(s, x).agents && AfterSendReserve(s, x).agents[id].job.UpdateJob?
    ensures id in s.agents && s.agents[id].job == AfterSendReserve(s, x).agents[id].job
  {
    RefusedKnows(s.agents[x], ReserveResult(s, x).Blocked?);
  }

  lemma UpdatingStartsNothing(s: State, x: Id, id: Id)
    requires x in s.agents && s.agents[x].job.UpdateJob? && id in AfterSendUpdate(s, x).agents
    requires AfterSendUpdate(s, x).agents[id].job.UpdateJob?
    ensures id in s.agents && s.agents[id].job.UpdateJob? && s.agents[id].job.next == AfterSendUpdate(s, x).agents[id].job.next
  {
    BrokenKnowledge(s.agents[x], s.agents[x].job.request.tag);
  }

  lemma OtherStepsStartNothing(s: State, step: Step, id: Id)
    requires Enabled(s, step) && !step.Local? && !step.SendReserve? && !step.SendUpdate?
    requires id in Apply(s, step).agents && Apply(s, step).agents[id].job.UpdateJob?
    ensures id in s.agents && s.agents[id].job.UpdateJob? && s.agents[id].job.next == Apply(s, step).agents[id].job.next
  {}

  lemma MoveJobOrigin(a: Agent, move: Move)
    requires AgentAfter(a, move).job.UpdateJob?
    ensures || (a.job.UpdateJob? && AgentAfter(a, move).job == a.job)
            || (&& move.StartJob? && |a.queue| > 0
                && PersistNext(a.op, a.queue[0].patch, a.queue[0].proved, move.now) == Some(AgentAfter(a, move).job.next))
  {
    if move.GiveUp? && a.job.UpdateJob? { BrokenKnowledge(a, a.job.request.tag); }
    if move.Acknowledge? { AcknowledgeKnowledge(a, move.expired); }
  }

  /** An update in flight was in flight before, or is the running update of an owner, or a reconciler sends it now. */
  predicate UpdateExplained(s: State, step: Step, n: nat, w: Write) {
    || (n in s.inflight && s.inflight[n] == w)
    || (&& step == SendUpdate(w.subject.operationId) && w.subject.operationId in s.agents
        && s.agents[w.subject.operationId].job.UpdateJob? && s.agents[w.subject.operationId].job.next == w.subject
        && UpdateResult(s, w.subject).Changed?)
    || (&& step.Settle? && step.id == w.subject.operationId && step.id in s.hist && step.read < |s.hist[step.id]|
        && w.subject.revision == step.read + 1
        && SettleNext(s, s.hist[step.id][step.read], step.evidence) == Some(w.subject))
  }

  lemma UpdateOrigin(s: State, step: Step, n: nat)
    requires GoodAgents(s) && GoodHistory(s) && GoodDocuments(s)
    requires Enabled(s, step) && n in Apply(s, step).inflight && Apply(s, step).inflight[n].expected.Some?
    ensures UpdateExplained(s, step, n, Apply(s, step).inflight[n])
  {
    match step {
      case SendReserve(x) => ReservingSendsNoUpdate(s, x, n);
      case SendUpdate(x) => SendingSent(s, x, n);
      case Settle(id, read, evidence) => SettlingSent(s, id, read, evidence, n);
      case _ => OtherStepsSendNothing(s, step, n);
    }
  }

  lemma SendingSent(s: State, x: Id, n: nat)
    requires GoodAgents(s) && x in s.agents && s.agents[x].job.UpdateJob? && n in AfterSendUpdate(s, x).inflight
    ensures UpdateExplained(s, SendUpdate(x), n, AfterSendUpdate(s, x).inflight[n])
  {
    AgentIsSound(s, x);
    UpdateSent(s, x, n);
  }

  lemma SubjectOfUpdate(s: State, next: Record)
    requires UpdateResult(s, next).Changed?
    ensures UpdateWrite(s, next).subject == next
  {}

  lemma SettledFacts(s: State, id: Id, read: nat, evidence: Evidence)
    requires GoodAgents(s) && GoodHistory(s) && GoodDocuments(s) && id in s.hist && read < |s.hist[id]|
    requires SettleNext(s, s.hist[id][read], evidence).Some?
    ensures var next := SettleNext(s, s.hist[id][read], evidence).value; next.operationId == id && next.revision == read + 1
  {
    SettleNextGood(s, id, read, evidence);
    HistoryRevision(s, id, read);
  }

  lemma SettlingSent(s: State, id: Id, read: nat, evidence: Evidence, n: nat)
    requires GoodAgents(s) && GoodHistory(s) && GoodDocuments(s) && SettleEnabled(s, id, read, evidence)
    requires n in WithWrite(s, UpdateWrite(s, SettleNext(s, s.hist[id][read], evidence).value)).inflight
    ensures UpdateExplained(s, Settle(id, read, evidence), n,
                            WithWrite(s, UpdateWrite(s, SettleNext(s, s.hist[id][read], evidence).value)).inflight[n])
  {
    SettledFacts(s, id, read, evidence);
    SubjectOfUpdate(s, SettleNext(s, s.hist[id][read], evidence).value);
  }

  lemma OtherStepsSendNothing(s: State, step: Step, n: nat)
    requires Enabled(s, step) && !step.SendReserve? && !step.SendUpdate? && !step.Settle? && n in Apply(s, step).inflight
    ensures n in s.inflight && s.inflight[n] == Apply(s, step).inflight[n]
  {}

  lemma ReservingSendsNoUpdate(s: State, x: Id, n: nat)
    requires x in s.agents && n in AfterSendReserve(s, x).inflight && AfterSendReserve(s, x).inflight[n].expected.Some?
    ensures n in s.inflight && s.inflight[n] == AfterSendReserve(s, x).inflight[n]
  {}

  lemma UpdateSent(s: State, x: Id, n: nat)
    requires x in s.agents && s.agents[x].job.UpdateJob? && s.agents[x].job.next.operationId == x
    requires n in AfterSendUpdate(s, x).inflight
    ensures UpdateExplained(s, SendUpdate(x), n, AfterSendUpdate(s, x).inflight[n])
  {}

  /** A committed version beyond the first stood before, or is the subject of the update committed now. */
  lemma VersionOrigin(s: State, step: Step, id: Id, k: nat)
    requires Inv(s) && Enabled(s, step) && id in Apply(s, step).hist && 0 < k < |Apply(s, step).hist[id]|
    ensures || (id in s.hist && k < |s.hist[id]| && s.hist[id][k] == Apply(s, step).hist[id][k])
            || (&& step.Commit? && step.write in s.inflight && s.inflight[step.write].expected.Some?
                && s.inflight[step.write].subject == Apply(s, step).hist[id][k])
  {
    if step.Commit? { CommittedVersion(s, step.write, id, k); } else { OnlyCommitsWrite(s, step); }
  }

  lemma CommittedVersion(s: State, n: nat, id: Id, k: nat)
    requires GoodHistory(s) && GoodRecords(s) && GoodWrites(s) && n in s.inflight && s.inflight[n].base == s.version
    requires id in AfterCommit(s, n).hist && 0 < k < |AfterCommit(s, n).hist[id]|
    ensures || (id in s.hist && k < |s.hist[id]| && s.hist[id][k] == AfterCommit(s, n).hist[id][k])
            || (s.inflight[n].expected.Some? && s.inflight[n].subject == AfterCommit(s, n).hist[id][k])
  {
    assert GoodWrite(s, n, s.inflight[n]);
    CommitExtends(s, n);
  }

  /** Everything running, travelling or committed at time i that is not a reservation was written by someone before. */
  ghost predicate JobsWritten(run: seq<State>, i: nat)
    requires i < |run|
  {
    forall id :: id in run[i].agents && run[i].agents[id].job.UpdateJob? ==> Written(run, i, run[i].agents[id].job.next)
  }

  ghost predicate UpdatesWritten(run: seq<State>, i: nat)
    requires i < |run|
  {
    forall n :: n in run[i].inflight && run[i].inflight[n].expected.Some? ==> Written(run, i, run[i].inflight[n].subject)
  }

  ghost predicate VersionsWritten(run: seq<State>, i: nat)
    requires i < |run|
  {
    forall id, k :: id in run[i].hist && 0 < k < |run[i].hist[id]| ==> Written(run, i, run[i].hist[id][k])
  }

  lemma JobWritten(run: seq<State>, i: nat, step: Step, id: Id)
    requires IsRun(run) && i + 1 < |run| && Takes(run, i, step) && JobsWritten(run, i)
    requires id in run[i + 1].agents && run[i + 1].agents[id].job.UpdateJob?
    ensures Written(run, i + 1, run[i + 1].agents[id].job.next)
  {
    var next := run[i + 1].agents[id].job.next;
    JobOrigin(run[i], step, id);
    if id in run[i].agents && run[i].agents[id].job.UpdateJob? && run[i].agents[id].job.next == next {
      WrittenEarlier(run, i, next);
    } else {
      RunInv(run, i);
      AgentIsSound(run[i], id);
      var q := run[i].agents[id].queue[0];
      PersistDecides(run[i].agents[id].op, q.patch, q.proved, step.move.now);
      assert OwnerWrote(run, i, next);
    }
  }

  lemma UpdateWritten(run: seq<State>, i: nat, step: Step, n: nat)
    requires IsRun(run) && i + 1 < |run| && Takes(run, i, step) && JobsWritten(run, i) && UpdatesWritten(run, i)
    requires n in run[i + 1].inflight && run[i + 1].inflight[n].expected.Some?
    ensures Written(run, i + 1, run[i + 1].inflight[n].subject)
  {
    var w := run[i + 1].inflight[n];
    RunInv(run, i);
    UpdateOrigin(run[i], step, n);
    if n in run[i].inflight && run[i].inflight[n] == w {
      WrittenEarlier(run, i, w.subject);
    } else if step.SendUpdate? {
      WrittenEarlier(run, i, w.subject);
    } else {
      SettlingDecides(run[i], run[i].hist[step.id][step.read], step.evidence, w.subject);
      assert ReconcilerWrote(run, i, w.subject);
    }
  }

  lemma VersionWritten(run: seq<State>, i: nat, step: Step, id: Id, k: nat)
    requires IsRun(run) && i + 1 < |run| && Takes(run, i, step) && UpdatesWritten(run, i) && VersionsWritten(run, i)
    requires id in run[i + 1].hist && 0 < k < |run[i + 1].hist[id]|
    ensures Written(run, i + 1, run[i + 1].hist[id][k])
  {
    VersionFrom(run, i, step, id, k);
    WrittenEarlier(run, i, run[i + 1].hist[id][k]);
  }

  lemma {:induction false} RunIsWritten(run: seq<State>, i: nat)
    requires IsRun(run) && i < |run|
    ensures JobsWritten(run, i) && UpdatesWritten(run, i) && VersionsWritten(run, i)
  {
    if i > 0 {
      RunIsWritten(run, i - 1);
      assert NextAt(run, i - 1);
      var step :| Takes(run, i - 1, step);
      forall id | id in run[i].agents && run[i].agents[id].job.UpdateJob? ensures Written(run, i, run[i].agents[id].job.next) {
        JobWritten(run, i - 1, step, id);
      }
      forall n | n in run[i].inflight && run[i].inflight[n].expected.Some? ensures Written(run, i, run[i].inflight[n].subject) {
        UpdateWritten(run, i - 1, step, n);
      }
      forall id, k | id in run[i].hist && 0 < k < |run[i].hist[id]| ensures Written(run, i, run[i].hist[id][k]) {
        VersionWritten(run, i - 1, step, id, k);
      }
    }
  }

  /** The owner wrote v with the outcome it had settled on by then, which is the first one its caller gave. */
  ghost predicate OwnerWroteOutcome(run: seq<State>, j: nat, v: Record) {
    && OwnerWrote(run, j, v) && v.outcome == CallerOutcome(run[j], v.operationId)
    && (v.outcome != Pending ==> exists g :: 0 <= g < j && GaveOutcome(run, g, v.operationId, v.outcome))
  }

  lemma OwnerWritesFirstOutcome(run: seq<State>, j: nat, v: Record)
    requires IsRun(run) && OwnerWrote(run, j, v)
    ensures OwnerWroteOutcome(run, j, v)
  {
    if v.outcome != Pending { OutcomeIsFirstGiven(run, j, v.operationId); }
  }

  /**
   * In every run each version after the reservation was written either by the operation's owner, carrying
   * exactly the outcome its caller gave first (or pending while there is none), or by a reconciler on its
   * evidence, which turns a pending outcome into failed and leaves any other as it is.
   */
  lemma VersionsCarryFirstOutcome(run: seq<State>, i: nat, id: Id, k: nat)
    requires IsRun(run) && i < |run| && id in run[i].hist && 0 < k < |run[i].hist[id]|
    ensures var v := run[i].hist[id][k];
            exists j :: 0 <= j < i && (OwnerWroteOutcome(run, j, v) || ReconcilerWrote(run, j, v))
  {
    var v := run[i].hist[id][k];
    RunIsWritten(run, i);
    assert Written(run, i, v);
    var j :| 0 <= j < i && (OwnerWrote(run, j, v) || ReconcilerWrote(run, j, v));
    if OwnerWrote(run, j, v) { OwnerWritesFirstOutcome(run, j, v); }
  }

  /**
   * What an acknowledged persist leaves with its owner: the version as acknowledged; certainty exactly where
   * there was some or a proof came back in time; durability exactly in time and with certainty; and,
   * if its wait had expired, a caller that is not resumed.
   */
  lemma AcknowledgeDecides(a: Agent, expired: bool)
    requires a.job.UpdateJob?
    ensures var a' := AgentAfter(a, Acknowledge(expired));
            && a'.op.acknowledged == a.job.next && a'.job == NoJob
            && (!a'.op.uncertain <==> !a.op.uncertain || (a.job.request.proved && !expired))
            && (a'.op.durable <==> !expired && !a'.op.uncertain)
            && a'.op.record == a.job.next.(resource := if a'.op.uncertain then Unknown else a.job.next.resource)
            && (expired ==> a'.pc == a.pc && a'.op.dispatched == a.op.dispatched)
  {}

  // ---------------------------------------------------------------- no claim without its proof

  /** The resources that end or hand over a claim. */
  predicate Claimed(r: Resource) {
    r == Stopped || r == NotStarted || r == BackgroundOwned
  }

  predicate Covered(proved: set<Resource>, r: Resource) {
    Claimed(r) ==> r in proved
  }

  predicate Unreserved(a: Agent) {
    a.reserveWrite.None? && a.job != ReserveJob
  }

  /** Nothing an agent holds or is about to write makes an unproved claim, unless its reservation never left. */
  predicate AgentCovered(a: Agent, proved: set<Resource>) {
    && (forall i :: 0 <= i < |a.queue| && a.queue[i].patch.resource.Some? ==> Covered(proved, a.queue[i].patch.resource.value))
    && (a.job.UpdateJob? ==> Covered(proved, a.job.next.resource) || Unreserved(a))
    && Covered(proved, a.op.acknowledged.resource) && Covered(proved, a.base.resource)
    && (Covered(proved, a.op.record.resource) || Unreserved(a))
  }

  lemma CoveredGrows(a: Agent, proved: set<Resource>, proved': set<Resource>)
    requires AgentCovered(a, proved) && proved <= proved'
    ensures AgentCovered(a, proved')
  {}

  lemma FinishedCovered(a: Agent, tag: Tag, proved: set<Resource>)
    requires AgentCovered(a, proved)
    ensures AgentCovered(Finished(a, tag), proved)
  {}

  lemma BrokenCovered(a: Agent, tag: Tag, proved: set<Resource>)
    requires AgentCovered(a, proved) && a.job.UpdateJob?
    ensures AgentCovered(Broken(a, tag), proved)
  {}

  lemma RefusedCovered(a: Agent, blocked: bool, proved: set<Resource>)
    requires AgentCovered(a, proved) && a.reserveWrite.None?
    ensures AgentCovered(RefusedReserve(a, blocked), proved)
  {}

  lemma StartJobCovered(a: Agent, now: int, proved: set<Resource>)
    requires AgentCovered(a, proved) && |a.queue| > 0 && a.job == NoJob
    ensures AgentCovered(AgentAfter(a, StartJob(now)), proved)
  {
    var q := a.queue[0];
    PersistDecides(a.op, q.patch, q.proved, now);
    if PersistNext(a.op, q.patch, q.proved, now).None? { FinishedCovered(a.(queue := a.queue[1..]), q.tag, proved); }
  }

  lemma AcknowledgeCovered(a: Agent, expired: bool, proved: set<Resource>)
    requires AgentCovered(a, proved) && (a.job.UpdateJob? ==> Covered(proved, a.job.next.resource))
    ensures AgentCovered(AgentAfter(a, Acknowledge(expired)), proved)
  {
    if a.job.UpdateJob? {
      var stored := a.(op := PersistCommitted(a.op, a.job.next, a.job.request.proved, expired), job := NoJob);
      assert AgentCovered(stored, proved);
      FinishedCovered(stored, a.job.request.tag, proved);
    }
  }

  lemma GiveUpCovered(a: Agent, proved: set<Resource>)
    requires AgentCovered(a, proved) && a.job != NoJob
    ensures AgentCovered(AgentAfter(a, GiveUp), proved)
  {
    if a.job.UpdateJob? { BrokenCovered(a, a.job.request.tag, proved); }
  }

  lemma EnqueueCovered(a: Agent, moved: Agent, op: Op, patch: Patch, p: bool, tag: Tag, proved: set<Resource>)
    requires AgentCovered(a, proved) && moved.queue == a.queue && moved.job == a.job && moved.base == a.base
    requires moved.reserveWrite == a.reserveWrite && op.acknowledged == a.op.acknowledged
    requires op.record.resource == a.op.record.resource || !Claimed(op.record.resource)
    requires patch.resource.Some? ==> Covered(proved, patch.resource.value)
    ensures AgentCovered(Enqueue(moved, op, patch, p, tag), proved)
  {}

  lemma QueueingCovered(a: Agent, move: Move, proved: set<Resource>)
    requires AgentCovered(a, proved) && (move.Complete? ==> Covered(proved, move.resource))
    requires move.Bind? || move.Dispatch? || move.Cancel? || move.GoUnknown? || move.Phase? || move.Complete?
    ensures AgentCovered(AgentAfter(a, move), proved)
  {
    match move {
      case Bind(f) =>
        EnqueueCovered(a, a.(pc := Binding, bound := Some(f)), a.op,
                       EMPTY_PATCH.(remoteFence := Some(f), sandboxUid := Some(f.sandboxUid)), false, BindTag, proved);
      case Dispatch(at) =>
        if a.bound.Some? {
          EnqueueCovered(a, a.(pc := Dispatching), a.op,
                         Patch(Some(Running), Some(a.bound.value.sandboxUid), None,
                               if a.op.record.dispatchedAt.Some? then a.op.record.dispatchedAt else Some(at)), false, DispatchTag, proved);
        }
      case Cancel =>
        if BeginCancel(a.op).Some? { EnqueueCovered(a, a, BeginCancel(a.op).value, ResourcePatch(StopRequested), false, Plain, proved); }
      case GoUnknown(timedOut) =>
        if BeginUnknown(a.op, timedOut).Some? {
          EnqueueCovered(a, a, BeginUnknown(a.op, timedOut).value, ResourcePatch(Unknown), false, Plain, proved);
        }
      case Phase => EnqueueCovered(a, a, a.op, EMPTY_PATCH, false, Plain, proved);
      case Complete(outcome, _, resource, _) =>
        EnqueueCovered(a, a, SettleOutcome(a.op, outcome), ResourcePatch(resource), true, Plain, proved);
    }
  }

  /** No move of an agent makes a claim that is not proved. */
  lemma MoveCovered(s: State, a: Agent, id: Id, move: Move, proved: set<Resource>)
    requires AgentCovered(a, proved) && AgentEnabled(s, a, id, move)
    requires move.Complete? ==> Covered(proved, move.resource)
    requires move.Acknowledge? && a.job.UpdateJob? ==> Covered(proved, a.job.next.resource)
    ensures AgentCovered(AgentAfter(a, move), proved)
  {
    match move {
      case StartJob(now) => StartJobCovered(a, now, proved);
      case Acknowledge(expired) => AcknowledgeCovered(a, expired, proved);
      case GiveUp => GiveUpCovered(a, proved);
      case _ =>
        if move.Bind? || move.Dispatch? || move.Cancel? || move.GoUnknown? || move.Phase? || move.Complete? {
          QueueingCovered(a, move, proved);
        }
    }
  }

  /** The evidence named by the proof is there: the document was issued, or the sandbox is gone. */
  predicate Witnessed(s: State, a: Agent, proof: Proof) {
    && (Carried(proof.kind).Some? ==> Carried(proof.kind).value in s.documents)
    && (proof.kind.SandboxAbsent? ==> a.op.record.sandboxUid.Some? && a.op.record.sandboxUid.value in s.gone)
  }

  /** At time j the owner completed with this resource, on a proof that supports it. */
  ghost predicate CompletedAt(run: seq<State>, j: nat, id: Id, resource: Resource) {
    && j + 1 < |run| && id in run[j].agents
    && exists outcome, proof, children :: Takes(run, j, Local(id, Complete(outcome, proof, resource, children)))
         && Proven(run[j].agents[id].op, outcome, proof, resource, children) && Witnessed(run[j], run[j].agents[id], proof)
  }

  /** At time j a reconciler wrote this resource on its evidence. */
  ghost predicate SettledAt(run: seq<State>, j: nat, id: Id, resource: Resource) {
    exists v: Record :: v.operationId == id && v.resource == resource && ReconcilerWrote(run, j, v)
  }

  ghost predicate ProvedBy(run: seq<State>, i: nat, id: Id, resource: Resource) {
    exists j :: 0 <= j < i && (CompletedAt(run, j, id, resource) || SettledAt(run, j, id, resource))
  }

  ghost function ProvedSet(run: seq<State>, i: nat, id: Id): set<Resource> {
    set r | r in {Stopped, NotStarted, BackgroundOwned} && ProvedBy(run, i, id, r)
  }

  lemma ProvedGrows(run: seq<State>, i: nat, id: Id)
    ensures ProvedSet(run, i, id) <= ProvedSet(run, i + 1, id)
  {}

  ghost predicate AgentsCovered(run: seq<State>, i: nat)
    requires i < |run|
  {
    forall id :: id in run[i].agents ==> AgentCovered(run[i].agents[id], ProvedSet(run, i, id))
  }

  ghost predicate WritesCovered(run: seq<State>, i: nat)
    requires i < |run|
  {
    forall n :: n in run[i].inflight ==>
      Covered(ProvedSet(run, i, run[i].inflight[n].subject.operationId), run[i].inflight[n].subject.resource)
  }

  ghost predicate VersionsCovered(run: seq<State>, i: nat)
    requires i < |run|
  {
    forall id, k :: id in run[i].hist && 0 <= k < |run[i].hist[id]| ==> Covered(ProvedSet(run, i, id), run[i].hist[id][k].resource)
  }

  /** An accepted completion proves its claim from then on. */
  lemma CompletionProves(run: seq<State>, i: nat, id: Id, move: Move)
    requires IsRun(run) && i + 1 < |run| && Takes(run, i, Local(id, move)) && move.Complete?
    ensures Covered(ProvedSet(run, i + 1, id), move.resource)
  {
    CompletionDecides(run[i].agents[id].op, move.outcome, move.proof, move.resource, move.children);
    assert Witnessed(run[i], run[i].agents[id], move.proof);
    assert CompletedAt(run, i, id, move.resource);
  }

  /** An update acknowledged to its writer stands in the history, so its claim is proved. */
  lemma AcknowledgedIsProved(run: seq<State>, i: nat, id: Id)
    requires IsRun(run) && i < |run| && VersionsCovered(run, i) && id in run[i].agents && run[i].agents[id].job.UpdateJob?
    requires run[i].agents[id].job.write.Some? && run[i].agents[id].job.write.value in run[i].committed
    ensures Covered(ProvedSet(run, i, id), run[i].agents[id].job.next.resource)
  {
    RunInv(run, i);
    AgentIsSound(run[i], id);
    var next := run[i].agents[id].job.next;
    assert Versions(run[i], id)[next.revision] == next;
  }

  lemma MovedCovered(run: seq<State>, i: nat, id: Id, move: Move)
    requires IsRun(run) && i + 1 < |run| && Takes(run, i, Local(id, move)) && AgentsCovered(run, i) && VersionsCovered(run, i)
    ensures AgentCovered(run[i + 1].agents[id], ProvedSet(run, i + 1, id))
  {
    var a, proved := run[i].agents[id], ProvedSet(run, i + 1, id);
    ProvedGrows(run, i, id);
    CoveredGrows(a, ProvedSet(run, i, id), proved);
    if move.Complete? { CompletionProves(run, i, id, move); }
    if move.Acknowledge? && a.job.UpdateJob? { AcknowledgedIsProved(run, i, id); }
    MoveCovered(run[i], a, id, move, proved);
  }

  lemma NewAgentCovered(r: Record, proved: set<Resource>)
    requires r.resource == Reserved
    ensures AgentCovered(NewAgent(r), proved)
  {}

  lemma ReservingCovered(s: State, x: Id, id: Id, proved: set<Resource>)
    requires x in s.agents && id in s.agents && AgentCovered(s.agents[id], proved)
    requires s.agents[x].job == ReserveJob && s.agents[x].reserveWrite.None?
    ensures id in AfterSendReserve(s, x).agents && AgentCovered(AfterSendReserve(s, x).agents[id], proved)
  {
    if x == id { RefusedCovered(s.agents[x], ReserveResult(s, x).Blocked?, proved); }
  }

  lemma UpdatingCovered(s: State, x: Id, id: Id, proved: set<Resource>)
    requires x in s.agents && id in s.agents && AgentCovered(s.agents[id], proved) && s.agents[x].job.UpdateJob?
    ensures id in AfterSendUpdate(s, x).agents && AgentCovered(AfterSendUpdate(s, x).agents[id], proved)
  {
    if x == id { BrokenCovered(s.agents[x], s.agents[x].job.request.tag, proved); }
  }

  lemma OtherStepCovered(s: State, step: Step, id: Id, proved: set<Resource>)
    requires Enabled(s, step) && !step.Local? && !step.SendReserve? && !step.SendUpdate?
    requires id in s.agents ==> AgentCovered(s.agents[id], proved)
    requires id in Apply(s, step).agents
    ensures AgentCovered(Apply(s, step).agents[id], proved)
  {
    match step {
      case Begin(r) => NewAgentCovered(r, proved);
      case _ =>
    }
  }

  lemma StepCovered(run: seq<State>, i: nat, step: Step, id: Id)
    requires IsRun(run) && i + 1 < |run| && Takes(run, i, step) && AgentsCovered(run, i) && VersionsCovered(run, i)
    requires id in run[i + 1].agents
    ensures AgentCovered(run[i + 1].agents[id], ProvedSet(run, i + 1, id))
  {
    ProvedGrows(run, i, id);
    if id in run[i].agents { CoveredGrows(run[i].agents[id], ProvedSet(run, i, id), ProvedSet(run, i + 1, id)); }
    match step {
      case Local(x, move) => if x == id { MovedCovered(run, i, id, move); }
      case SendReserve(x) => ReservingCovered(run[i], x, id, ProvedSet(run, i + 1, id));
      case SendUpdate(x) => UpdatingCovered(run[i], x, id, ProvedSet(run, i + 1, id));
      case _ => OtherStepCovered(run[i], step, id, ProvedSet(run, i + 1, id));
    }
  }

  /** A write that travels: its claim was proved when its writer's was, or it is a reservation and makes none. */
  lemma WriteCovered(run: seq<State>, i: nat, step: Step, n: nat)
    requires IsRun(run) && i + 1 < |run| && Takes(run, i, step) && AgentsCovered(run, i) && WritesCovered(run, i)
    requires n in run[i + 1].inflight
    ensures Covered(ProvedSet(run, i + 1, run[i + 1].inflight[n].subject.operationId), run[i + 1].inflight[n].subject.resource)
  {
    var w := run[i + 1].inflight[n];
    ProvedGrows(run, i, w.subject.operationId);
    if w.expected.None? {
      RunInv(run, i + 1);
      ReservationMakesNoClaim(run[i + 1], n);
    } else {
      RunInv(run, i);
      UpdateOrigin(run[i], step, n);
      NewUpdateCovered(run, i, step, n);
    }
  }

  lemma ReservationMakesNoClaim(s: State, n: nat)
    requires GoodWrites(s) && n in s.inflight && s.inflight[n].expected.None?
    ensures s.inflight[n].subject.resource == Reserved
  {
    assert GoodWrite(s, n, s.inflight[n]);
  }

  lemma NewUpdateCovered(run: seq<State>, i: nat, step: Step, n: nat)
    requires i + 1 < |run| && Takes(run, i, step) && AgentsCovered(run, i) && WritesCovered(run, i)
    requires GoodHistory(run[i]) && GoodRecords(run[i])
    requires n in run[i + 1].inflight && UpdateExplained(run[i], step, n, run[i + 1].inflight[n])
    requires ProvedSet(run, i, run[i + 1].inflight[n].subject.operationId) <= ProvedSet(run, i + 1, run[i + 1].inflight[n].subject.operationId)
    ensures Covered(ProvedSet(run, i + 1, run[i + 1].inflight[n].subject.operationId), run[i + 1].inflight[n].subject.resource)
  {
    var w := run[i + 1].inflight[n];
    if n in run[i].inflight && run[i].inflight[n] == w {
    } else if step.Settle? {
      SettleCovered(run, i, step, w.subject);
    } else {
      SenderIsReserved(run[i], w.subject.operationId, w.subject);
    }
  }

  /** What a reconciler sends is proved by its own evidence. */
  lemma SettleCovered(run: seq<State>, i: nat, step: Step, v: Record)
    requires i + 1 < |run| && Takes(run, i, step) && step.Settle? && step.id == v.operationId
    requires step.id in run[i].hist && step.read < |run[i].hist[step.id]| && v.revision == step.read + 1
    requires SettleNext(run[i], run[i].hist[step.id][step.read], step.evidence) == Some(v)
    ensures Covered(ProvedSet(run, i + 1, v.operationId), v.resource)
  {
    SettlingDecides(run[i], run[i].hist[step.id][step.read], step.evidence, v);
    assert ReconcilerWrote(run, i, v);
    assert SettledAt(run, i, v.operationId, v.resource);
  }

  /** Whoever can update a row has had its reservation committed. */
  lemma SenderIsReserved(s: State, id: Id, next: Record)
    requires GoodHistory(s) && GoodRecords(s) && id in s.agents && next.operationId == id && UpdateResult(s, next).Changed?
    ensures !Unreserved(s.agents[id])
  {}

  /** Every version is of its own record, and the first makes no claim. */
  lemma VersionFacts(run: seq<State>, i: nat, id: Id, k: nat)
    requires IsRun(run) && i < |run| && id in run[i].hist && k < |run[i].hist[id]|
    ensures run[i].hist[id][k].operationId == id
    ensures k == 0 ==> run[i].hist[id][k].resource == Reserved
  {
    RunInv(run, i);
    VersionIsTruthful(run[i], id, k);
    AgentIsSound(run[i], id);
    FirstVersion(run[i], id);
  }

  lemma FirstVersion(s: State, id: Id)
    requires GoodHistory(s) && id in s.hist
    ensures id in s.agents && |s.hist[id]| > 0 && s.hist[id][0] == s.agents[id].base
  {
    assert Chain(s.agents[id], s.gone, s.hist[id]);
  }

  lemma VersionFrom(run: seq<State>, i: nat, step: Step, id: Id, k: nat)
    requires IsRun(run) && i + 1 < |run| && Takes(run, i, step) && id in run[i + 1].hist && 0 < k < |run[i + 1].hist[id]|
    ensures || (id in run[i].hist && k < |run[i].hist[id]| && run[i].hist[id][k] == run[i + 1].hist[id][k])
            || (&& step.Commit? && step.write in run[i].inflight && run[i].inflight[step.write].expected.Some?
                && run[i].inflight[step.write].subject == run[i + 1].hist[id][k])
  {
    RunInv(run, i);
    VersionOrigin(run[i], step, id, k);
  }

  lemma VersionCovered(run: seq<State>, i: nat, step: Step, id: Id, k: nat)
    requires IsRun(run) && i + 1 < |run| && Takes(run, i, step) && WritesCovered(run, i) && VersionsCovered(run, i)
    requires id in run[i + 1].hist && k < |run[i + 1].hist[id]|
    ensures Covered(ProvedSet(run, i + 1, id), run[i + 1].hist[id][k].resource)
  {
    ProvedGrows(run, i, id);
    VersionFacts(run, i + 1, id, k);
    if k > 0 { VersionFrom(run, i, step, id, k); }
  }

  lemma {:induction false} RunIsCovered(run: seq<State>, i: nat)
    requires IsRun(run) && i < |run|
    ensures AgentsCovered(run, i) && WritesCovered(run, i) && VersionsCovered(run, i)
  {
    if i > 0 {
      RunIsCovered(run, i - 1);
      assert NextAt(run, i - 1);
      var step :| Takes(run, i - 1, step);
      forall id | id in run[i].agents ensures AgentCovered(run[i].agents[id], ProvedSet(run, i, id)) {
        StepCovered(run, i - 1, step, id);
      }
      forall n | n in run[i].inflight
        ensures Covered(ProvedSet(run, i, run[i].inflight[n].subject.operationId), run[i].inflight[n].subject.resource)
      {
        WriteCovered(run, i - 1, step, n);
      }
      forall id, k | id in run[i].hist && 0 <= k < |run[i].hist[id]| ensures Covered(ProvedSet(run, i, id), run[i].hist[id][k].resource) {
        VersionCovered(run, i - 1, step, id, k);
      }
    }
  }

  /**
   * In every run, a version that says stopped, not_started or background_owned was preceded by a
   * completion of that very resource which the owner accepted on evidence then in the world, or by a
   * reconciler's write on signed evidence or a vanished sandbox. Nothing else ends or hands over a claim.
   */
  lemma ClaimsAreProved(run: seq<State>, i: nat, id: Id, k: nat)
    requires IsRun(run) && i < |run| && id in run[i].hist && k < |run[i].hist[id]|
    requires var r := run[i].hist[id][k].resource; r == Stopped || r == NotStarted || r == BackgroundOwned
    ensures var r := run[i].hist[id][k].resource;
            exists j :: 0 <= j < i && (CompletedAt(run, j, id, r) || SettledAt(run, j, id, r))
  {
    RunIsCovered(run, i);
    assert run[i].hist[id][k].resource in ProvedSet(run, i, id);
  }
}
