/** What must have happened before a remote attempt can run. */
module OwnershipLaunches {
  import opened Text
  import opened OwnershipState
  import opened OwnershipJournal
  import opened OwnedOperations
  import opened OwnershipProtocol
  import opened OwnershipSafety
  import opened OwnershipTheorems

  // ---------------------------------------------------------------- a cancel before dispatch

  /** Cancelled before it was dispatched. */
  predicate Stillborn(a: Agent) {
    a.op.aborted && !a.op.dispatched
  }

  /** No local transition takes a cancel back or dispatches. */
  lemma FlagsStay(o: Op, outcome: Outcome, timedOut: bool, committed: Record, proved: bool, expired: bool, blocked: bool)
    ensures MarkUncertain(o).aborted == o.aborted && MarkUncertain(o).dispatched == o.dispatched
    ensures SettleOutcome(o, outcome).aborted == o.aborted && SettleOutcome(o, outcome).dispatched == o.dispatched
    ensures var f := SettleBeginFailure(o, expired, blocked); f.aborted == o.aborted && f.dispatched == o.dispatched
    ensures var c := PersistCommitted(o, committed, proved, expired); c.aborted == o.aborted && c.dispatched == o.dispatched
    ensures BeginUnknown(o, timedOut).Some? ==>
              BeginUnknown(o, timedOut).value.aborted == o.aborted && BeginUnknown(o, timedOut).value.dispatched == o.dispatched
    ensures BeginCancel(o).Some? ==> BeginCancel(o).value.aborted && BeginCancel(o).value.dispatched == o.dispatched
  {}

  lemma FinishedKeepsStillborn(a: Agent, tag: Tag)
    requires Stillborn(a)
    ensures Stillborn(Finished(a, tag))
  {}

  lemma JobKeepsStillborn(a: Agent, move: Move)
    requires Stillborn(a) && (move.StartJob? || move.Acknowledge? || move.GiveUp?)
    ensures Stillborn(AgentAfter(a, move))
  {
    match move {
      case StartJob(_) => if |a.queue| > 0 { FinishedKeepsStillborn(a.(queue := a.queue[1..]), a.queue[0].tag); }
      case Acknowledge(expired) =>
        if a.job.UpdateJob? {
          var q := a.job.request;
          FlagsStay(a.op, Failed, false, a.job.next, q.proved, expired, false);
          FinishedKeepsStillborn(a.(op := PersistCommitted(a.op, a.job.next, q.proved, expired), job := NoJob), q.tag);
        }
      case GiveUp =>
        FlagsStay(a.op, Failed, false, a.base, false, false, false);
        if a.job.UpdateJob? { BrokenKeepsStillborn(a, a.job.request.tag); }
    }
  }

  lemma MoveKeepsStillborn(a: Agent, move: Move)
    requires Stillborn(a)
    ensures Stillborn(AgentAfter(a, move))
  {
    match move {
      case StartJob(_) => JobKeepsStillborn(a, move);
      case Acknowledge(_) => JobKeepsStillborn(a, move);
      case GiveUp => JobKeepsStillborn(a, move);
      case Complete(outcome, _, _, _) => FlagsStay(a.op, outcome, false, a.base, false, false, false);
      case GoUnknown(timedOut) => FlagsStay(a.op, Failed, timedOut, a.base, false, false, false);
      case ReserveTimeout => FlagsStay(a.op, Failed, false, a.base, false, true, false);
      case _ => FlagsStay(a.op, Failed, false, a.base, false, false, false);
    }
  }

  lemma RefusedKeepsStillborn(a: Agent, blocked: bool)
    ensures Stillborn(a) ==> Stillborn(RefusedReserve(a, blocked))
  {}

  lemma BrokenKeepsStillborn(a: Agent, tag: Tag)
    ensures Stillborn(a) ==> Stillborn(Broken(a, tag))
  {}

  lemma SendingKeepsStillborn(s: State, x: Id, id: Id)
    requires x in s.agents && id in s.agents && Stillborn(s.agents[id])
    ensures id in AfterSendReserve(s, x).agents && Stillborn(AfterSendReserve(s, x).agents[id])
  {
    ReservingLeaves(s, x, id);
    RefusedKeepsStillborn(s.agents[id], true);
    RefusedKeepsStillborn(s.agents[id], false);
  }

  lemma UpdatingKeepsStillborn(s: State, x: Id, id: Id)
    requires x in s.agents && id in s.agents && Stillborn(s.agents[id]) && s.agents[x].job.UpdateJob?
    ensures id in AfterSendUpdate(s, x).agents && Stillborn(AfterSendUpdate(s, x).agents[id])
  {
    BrokenKeepsStillborn(s.agents[x], s.agents[x].job.request.tag);
  }

  lemma StepKeepsStillborn(s: State, step: Step, id: Id)
    requires Enabled(s, step) && id in s.agents && Stillborn(s.agents[id])
    ensures id in Apply(s, step).agents && Stillborn(Apply(s, step).agents[id])
  {
    match step {
      case Local(x, move) => if x == id { MoveKeepsStillborn(s.agents[x], move); }
      case SendReserve(x) => SendingKeepsStillborn(s, x, id);
      case SendUpdate(x) => UpdatingKeepsStillborn(s, x, id);
      case _ =>
    }
  }

  /** In every run an operation cancelled before its dispatch returned is never sent, and no process of it ever runs. */
  lemma {:induction false} CancelledNeverRuns(run: seq<State>, i: nat, j: nat, id: Id)
    requires IsRun(run) && i <= j < |run| && id in run[i].agents
    requires run[i].agents[id].op.aborted && !run[i].agents[id].op.dispatched
    ensures id in run[j].agents && run[j].agents[id].op.aborted && !run[j].agents[id].op.dispatched
    ensures !run[j].agents[id].sent && run[j].agents[id].remote != Live
  {
    if i < j {
      CancelledNeverRuns(run, i, j - 1, id);
      assert NextAt(run, j - 1);
      var step :| Enabled(run[j - 1], step) && run[j] == Apply(run[j - 1], step);
      StepKeepsStillborn(run[j - 1], step, id);
    }
    RunInv(run, j);
    AgentIsSound(run[j], id);
  }

  // ---------------------------------------------------------------- the fence on record

  /** Some committed version of the record carries the fence its caller bound. */
  predicate Recorded(versions: seq<Record>, bound: Option<Fence>) {
    bound.Some? && exists k :: 0 <= k < |versions| && versions[k].remoteFence == bound
  }

  predicate Closes(q: Request) {
    q.proved || q.patch.resource == Some(Stopped) || q.patch.resource == Some(NotStarted)
  }

  /** A terminal is held, acknowledged or being written, or a proof of one is on its way. */
  predicate Proving(a: Agent) {
    || IsTerminal(a.op.acknowledged) || IsTerminal(a.op.record)
    || (exists i :: 0 <= i < |a.queue| && Closes(a.queue[i]))
    || (a.job.UpdateJob? && (Closes(a.job.request) || IsTerminal(a.job.next)))
  }

  /** The request of a bind carries the fence. */
  predicate BindsFence(q: Request) {
    q.tag == BindTag ==> q.patch.remoteFence.Some? && !q.proved
  }

  predicate NeedsRecord(a: Agent) {
    || a.pc in {Bound, Dispatching, Executing} || a.sent || a.op.dispatched
    || a.op.record.remoteFence.Some? || a.op.acknowledged.remoteFence.Some?
    || (a.pc != Finalizing && Proving(a))
  }

  /** Past the bind, and wherever a fence or a proof shows, the fence is on record. */
  predicate OnRecord(a: Agent, versions: seq<Record>) {
    && a.base.remoteFence.None?
    && (forall i :: 0 <= i < |a.queue| ==> BindsFence(a.queue[i]))
    && (a.job.UpdateJob? ==> BindsFence(a.job.request)
                             && (a.job.request.patch.remoteFence.Some? ==> a.job.next.remoteFence == a.job.request.patch.remoteFence))
    && (NeedsRecord(a) ==> Recorded(versions, a.bound))
  }

  lemma OnRecordGrows(a: Agent, versions: seq<Record>, versions': seq<Record>)
    requires OnRecord(a, versions) && versions <= versions'
    ensures OnRecord(a, versions')
  {
    if Recorded(versions, a.bound) {
      var k :| 0 <= k < |versions| && versions[k].remoteFence == a.bound;
      assert versions'[k].remoteFence == a.bound;
    }
  }

  lemma FinishedOnRecord(a: Agent, tag: Tag, versions: seq<Record>)
    requires OnRecord(a, versions)
    requires tag == BindTag && a.pc == Binding ==> Recorded(versions, a.bound)
    ensures OnRecord(Finished(a, tag), versions)
  {}

  lemma BrokenOnRecord(a: Agent, versions: seq<Record>)
    requires OnRecord(a, versions) && a.job.UpdateJob?
    ensures OnRecord(Broken(a, a.job.request.tag), versions)
  {}

  lemma RefusedOnRecord(a: Agent, blocked: bool, versions: seq<Record>)
    requires OnRecord(a, versions)
    ensures OnRecord(RefusedReserve(a, blocked), versions)
  {}

  lemma PoppedOnRecord(a: Agent, versions: seq<Record>)
    requires OnRecord(a, versions) && |a.queue| > 0
    ensures OnRecord(a.(queue := a.queue[1..]), versions)
    ensures Closes(a.queue[0]) ==> Proving(a)
    ensures Proving(a.(queue := a.queue[1..])) ==> Proving(a)
  {}

  lemma StartJobOnRecord(a: Agent, now: int, versions: seq<Record>)
    requires OnRecord(a, versions) && |a.queue| > 0 && a.job == NoJob
    ensures OnRecord(AgentAfter(a, StartJob(now)), versions)
  {
    var q := a.queue[0];
    PersistDecides(a.op, q.patch, q.proved, now);
    PoppedOnRecord(a, versions);
    assert BindsFence(q);
    if PersistNext(a.op, q.patch, q.proved, now).None? {
      FinishedOnRecord(a.(queue := a.queue[1..]), q.tag, versions);
    }
  }

  /** An acknowledged update is a committed version, so its fence is on record. */
  lemma AcknowledgedOnRecord(a: Agent, gone: set<Id>, expired: bool, versions: seq<Record>)
    requires OnRecord(a, versions) && a.job.UpdateJob? && a.job.next in versions && Good(a, gone, a.job.next)
    requires GoodRequest(a, gone, a.job.request)
    ensures OnRecord(AgentAfter(a, Acknowledge(expired)), versions)
  {
    var next, q := a.job.next, a.job.request;
    var k :| 0 <= k < |versions| && versions[k] == next;
    if next.remoteFence.Some? { assert versions[k].remoteFence == a.bound; }
    var stored := a.(op := PersistCommitted(a.op, next, q.proved, expired), job := NoJob);
    assert Proving(stored) ==> Proving(a);
    assert OnRecord(stored, versions);
    if !expired { FinishedOnRecord(stored, q.tag, versions); }
  }

  lemma EnqueueOnRecord(a: Agent, moved: Agent, op: Op, patch: Patch, proved: bool, tag: Tag, versions: seq<Record>)
    requires OnRecord(a, versions) && moved.queue == a.queue && moved.job == a.job && moved.base == a.base
    requires op.acknowledged == a.op.acknowledged && op.record.remoteFence == a.op.record.remoteFence
    requires op.dispatched == a.op.dispatched && moved.sent == a.sent
    requires IsTerminal(op.record) ==> IsTerminal(a.op.record)
    requires BindsFence(Request(patch, proved, tag))
    requires NeedsRecord(Enqueue(moved, op, patch, proved, tag)) ==> Recorded(versions, moved.bound)
    ensures OnRecord(Enqueue(moved, op, patch, proved, tag), versions)
  {}

  lemma EnqueueNeeds(a: Agent, moved: Agent, op: Op, patch: Patch, tag: Tag)
    requires moved.queue == a.queue && moved.job == a.job && moved.sent == a.sent
    requires op.acknowledged == a.op.acknowledged && op.record.remoteFence == a.op.record.remoteFence
    requires op.dispatched == a.op.dispatched && (IsTerminal(op.record) ==> IsTerminal(a.op.record))
    requires !Closes(Request(patch, false, tag))
    requires moved.pc in {Bound, Dispatching, Executing} ==> a.pc in {Bound, Dispatching, Executing}
    requires a.pc == Finalizing ==> moved.pc == Finalizing
    ensures NeedsRecord(Enqueue(moved, op, patch, false, tag)) ==> NeedsRecord(a)
  {
    var a' := Enqueue(moved, op, patch, false, tag);
    if exists i :: 0 <= i < |a'.queue| && Closes(a'.queue[i]) {
      var i :| 0 <= i < |a'.queue| && Closes(a'.queue[i]);
      assert i < |a.queue| && a'.queue[i] == a.queue[i];
    }
  }

  lemma BindOnRecord(a: Agent, gone: set<Id>, f: Fence, versions: seq<Record>)
    requires OnRecord(a, versions) && Sound(a, gone) && a.pc == Preparing
    ensures OnRecord(AgentAfter(a, Bind(f)), versions)
  {
    var patch := EMPTY_PATCH.(remoteFence := Some(f), sandboxUid := Some(f.sandboxUid));
    var moved := a.(pc := Binding, bound := Some(f));
    EnqueueNeeds(a, moved, a.op, patch, BindTag);
    EnqueueOnRecord(a, moved, a.op, patch, false, BindTag, versions);
  }

  lemma DispatchOnRecord(a: Agent, at: int, versions: seq<Record>)
    requires OnRecord(a, versions) && a.pc == Bound && a.bound.Some?
    ensures OnRecord(AgentAfter(a, Dispatch(at)), versions)
  {
    EnqueueOnRecord(a, a.(pc := Dispatching), a.op,
                    Patch(Some(Running), Some(a.bound.value.sandboxUid), None,
                          if a.op.record.dispatchedAt.Some? then a.op.record.dispatchedAt else Some(at)), false, DispatchTag, versions);
  }

  lemma PlainOnRecord(a: Agent, op: Op, patch: Patch, versions: seq<Record>)
    requires OnRecord(a, versions) && op.acknowledged == a.op.acknowledged && op.record.remoteFence == a.op.record.remoteFence
    requires op.dispatched == a.op.dispatched && (IsTerminal(op.record) ==> IsTerminal(a.op.record))
    requires !Closes(Request(patch, false, Plain))
    ensures OnRecord(Enqueue(a, op, patch, false, Plain), versions)
  {
    EnqueueNeeds(a, a, op, patch, Plain);
    EnqueueOnRecord(a, a, op, patch, false, Plain, versions);
  }

  /** A proof comes from a finished caller, or the record already shows a fence. */
  lemma CompleteOnRecord(s: State, a: Agent, move: Move, versions: seq<Record>)
    requires OnRecord(a, versions) && move.Complete?
    requires CompleteAllowed(a.op, move.outcome, move.proof, move.resource, move.children) && EvidenceExists(s, a, move.proof)
    ensures OnRecord(AgentAfter(a, move), versions)
  {
    assert a.pc == Finalizing || a.op.record.remoteFence.Some?;
    if a.pc == Finalizing && !Recorded(versions, a.bound) {
      assert !NeedsRecord(a);
      assert !NeedsRecord(AgentAfter(a, move));
    }
    EnqueueOnRecord(a, a, SettleOutcome(a.op, move.outcome), ResourcePatch(move.resource), true, Plain, versions);
  }

  /** Moves of the caller or the remote side that neither queue nor persist. */
  lemma CallerOnRecord(s: State, a: Agent, id: Id, move: Move, gone: set<Id>, versions: seq<Record>)
    requires OnRecord(a, versions) && Sound(a, gone) && AgentEnabled(s, a, id, move)
    requires move.Send? || move.SpawnFailed? || move.Finalize? || move.Forget? || move.Launch? || move.Exit? || move.Promise?
    ensures OnRecord(AgentAfter(a, move), versions)
  {}

  lemma MarkedOnRecord(a: Agent, versions: seq<Record>)
    requires OnRecord(a, versions)
    ensures OnRecord(a.(op := MarkUncertain(a.op)), versions)
  {}

  lemma FailedBeginOnRecord(a: Agent, mayHaveCommitted: bool, blocked: bool, job: Job, versions: seq<Record>)
    requires OnRecord(a, versions) && (job == a.job || job == NoJob)
    ensures OnRecord(a.(op := SettleBeginFailure(a.op, mayHaveCommitted, blocked), pc := Finalizing, job := job), versions)
  {}

  lemma ReservedOnRecord(a: Agent, gone: set<Id>, expired: bool, versions: seq<Record>)
    requires OnRecord(a, versions) && Sound(a, gone) && !a.job.UpdateJob?
    ensures OnRecord(AgentAfter(a, Acknowledge(expired)), versions)
  {}

  lemma QuietMoveOnRecord(s: State, a: Agent, id: Id, move: Move, gone: set<Id>, versions: seq<Record>)
    requires OnRecord(a, versions) && Sound(a, gone) && AgentEnabled(s, a, id, move)
    requires !move.Bind? && !move.Dispatch? && !move.Cancel? && !move.GoUnknown? && !move.Phase? && !move.Complete?
    requires !move.StartJob? && !(move.Acknowledge? && a.job.UpdateJob?) && !(move.GiveUp? && a.job.UpdateJob?)
    ensures OnRecord(AgentAfter(a, move), versions)
  {
    match move {
      case ReserveTimeout => FailedBeginOnRecord(a, true, false, a.job, versions);
      case GiveUp => if a.pc == Beginning { FailedBeginOnRecord(a, false, false, NoJob, versions); }
      case Acknowledge(expired) => ReservedOnRecord(a, gone, expired, versions);
      case Uncertain => MarkedOnRecord(a, versions);
      case _ => CallerOnRecord(s, a, id, move, gone, versions);
    }
  }

  lemma QueueingOnRecord(s: State, a: Agent, id: Id, move: Move, gone: set<Id>, versions: seq<Record>)
    requires OnRecord(a, versions) && Sound(a, gone) && AgentEnabled(s, a, id, move)
    requires move.Bind? || move.Dispatch? || move.Cancel? || move.GoUnknown? || move.Phase? || move.Complete?
    ensures OnRecord(AgentAfter(a, move), versions)
  {
    match move {
      case Bind(f) => BindOnRecord(a, gone, f, versions);
      case Dispatch(at) => DispatchOnRecord(a, at, versions);
      case Cancel => PlainOnRecord(a, BeginCancel(a.op).value, ResourcePatch(StopRequested), versions);
      case GoUnknown(timedOut) => PlainOnRecord(a, BeginUnknown(a.op, timedOut).value, ResourcePatch(Unknown), versions);
      case Phase => PlainOnRecord(a, a.op, EMPTY_PATCH, versions);
      case Complete(_, _, _, _) => CompleteOnRecord(s, a, move, versions);
    }
  }

  /** The persist an owner runs, from its start to its end. */
  lemma JobOnRecord(s: State, a: Agent, id: Id, move: Move, gone: set<Id>, versions: seq<Record>)
    requires OnRecord(a, versions) && Sound(a, gone) && AgentEnabled(s, a, id, move)
    requires move.StartJob? || (a.job.UpdateJob? && (move.Acknowledge? || move.GiveUp?))
    requires move.Acknowledge? ==> a.job.next in versions
    ensures OnRecord(AgentAfter(a, move), versions)
  {
    match move {
      case StartJob(now) => StartJobOnRecord(a, now, versions);
      case Acknowledge(expired) => AcknowledgedOnRecord(a, gone, expired, versions);
      case GiveUp => BrokenOnRecord(a, versions);
    }
  }

  lemma AcknowledgedIsVersion(s: State, id: Id)
    requires GoodAgents(s) && id in s.agents && s.agents[id].job.UpdateJob?
    requires s.agents[id].job.write.Some? && s.agents[id].job.write.value in s.committed
    ensures s.agents[id].job.next in Versions(s, id)
  {
    AgentIsSound(s, id);
    assert Versions(s, id)[s.agents[id].job.next.revision] == s.agents[id].job.next;
  }

  lemma MoveOnRecord(s: State, id: Id, move: Move)
    requires GoodAgents(s) && id in s.agents && AgentEnabled(s, s.agents[id], id, move) && OnRecord(s.agents[id], Versions(s, id))
    ensures OnRecord(AgentAfter(s.agents[id], move), Versions(s, id))
  {
    var a := s.agents[id];
    AgentIsSound(s, id);
    if move.Bind? || move.Dispatch? || move.Cancel? || move.GoUnknown? || move.Phase? || move.Complete? {
      QueueingOnRecord(s, a, id, move, s.gone, Versions(s, id));
    } else if move.StartJob? || (a.job.UpdateJob? && (move.Acknowledge? || move.GiveUp?)) {
      if move.Acknowledge? { AcknowledgedIsVersion(s, id); }
      JobOnRecord(s, a, id, move, s.gone, Versions(s, id));
    } else {
      QuietMoveOnRecord(s, a, id, move, s.gone, Versions(s, id));
    }
  }

  ghost predicate AllOnRecord(s: State) {
    forall id :: id in s.agents ==> OnRecord(s.agents[id], Versions(s, id))
  }

  lemma ReservingOnRecord(s: State, x: Id, id: Id, versions: seq<Record>)
    requires x in s.agents && id in s.agents && OnRecord(s.agents[id], versions)
    ensures id in AfterSendReserve(s, x).agents && OnRecord(AfterSendReserve(s, x).agents[id], versions)
  {
    ReservingLeaves(s, x, id);
    RefusedOnRecord(s.agents[id], true, versions);
    RefusedOnRecord(s.agents[id], false, versions);
    NumberedOnRecord(s.agents[id], Some(s.nextWrite), versions);
  }

  lemma NumberedOnRecord(a: Agent, rw: Option<nat>, versions: seq<Record>)
    requires OnRecord(a, versions)
    ensures OnRecord(a.(reserveWrite := rw), versions)
  {}

  lemma UpdatingOnRecord(s: State, x: Id, id: Id, versions: seq<Record>)
    requires x in s.agents && id in s.agents && OnRecord(s.agents[id], versions) && s.agents[x].job.UpdateJob?
    ensures id in AfterSendUpdate(s, x).agents && OnRecord(AfterSendUpdate(s, x).agents[id], versions)
  {
    UpdatingLeaves(s, x, id);
    if s.agents[id].job.UpdateJob? {
      BrokenOnRecord(s.agents[id], versions);
      SentOnRecord(s.agents[id], Some(s.nextWrite), versions);
    }
  }

  lemma SentOnRecord(a: Agent, write: Option<nat>, versions: seq<Record>)
    requires OnRecord(a, versions) && a.job.UpdateJob?
    ensures OnRecord(a.(job := a.job.(write := write)), versions)
  {}

  lemma OtherStepOnRecord(s: State, step: Step, id: Id)
    requires Enabled(s, step) && !step.Local? && !step.SendReserve? && !step.SendUpdate? && !step.Commit?
    requires id in s.agents ==> OnRecord(s.agents[id], Versions(s, id))
    requires id in Apply(s, step).agents
    ensures OnRecord(Apply(s, step).agents[id], Versions(s, id))
  {}

  lemma SameVersions(s: State, step: Step, id: Id)
    requires Enabled(s, step) && !step.Commit?
    ensures Versions(Apply(s, step), id) == Versions(s, id)
  {
    OnlyCommitsWrite(s, step);
  }

  lemma CommitOnRecord(s: State, n: nat, id: Id)
    requires Inv(s) && n in s.inflight && s.inflight[n].base == s.version && id in s.agents && OnRecord(s.agents[id], Versions(s, id))
    ensures OnRecord(s.agents[id], Versions(AfterCommit(s, n), id))
  {
    CommitExtendsHistory(s, n);
    OnRecordGrows(s.agents[id], Versions(s, id), Versions(AfterCommit(s, n), id));
  }

  lemma OwnersStepOnRecord(s: State, step: Step, id: Id)
    requires GoodAgents(s) && AllOnRecord(s) && Enabled(s, step) && !step.Commit? && id in Apply(s, step).agents
    ensures OnRecord(Apply(s, step).agents[id], Versions(s, id))
  {
    match step {
      case Local(x, move) => if x == id { MoveOnRecord(s, x, move); }
      case SendReserve(x) => ReservingOnRecord(s, x, id, Versions(s, id));
      case SendUpdate(x) => UpdatingOnRecord(s, x, id, Versions(s, id));
      case _ => OtherStepOnRecord(s, step, id);
    }
  }

  lemma StepOnRecord(s: State, step: Step, id: Id)
    requires Inv(s) && AllOnRecord(s) && Enabled(s, step) && id in Apply(s, step).agents
    ensures OnRecord(Apply(s, step).agents[id], Versions(Apply(s, step), id))
  {
    if step.Commit? {
      CommitOnRecord(s, step.write, id);
    } else {
      SameVersions(s, step, id);
      OwnersStepOnRecord(s, step, id);
    }
  }

  lemma {:induction false} RunOnRecord(run: seq<State>, i: nat)
    requires IsRun(run) && i < |run|
    ensures AllOnRecord(run[i])
  {
    if i > 0 {
      RunOnRecord(run, i - 1);
      RunInv(run, i - 1);
      assert NextAt(run, i - 1);
      var step :| Enabled(run[i - 1], step) && run[i] == Apply(run[i - 1], step);
      forall id | id in run[i].agents ensures OnRecord(run[i].agents[id], Versions(run[i], id)) {
        StepOnRecord(run[i - 1], step, id);
      }
    }
  }

  /**
   * In every run, before an invoke frame leaves, and so before a process can run, the fence of that very
   * attempt stands in a committed version of its row: a reconciler that never met the owner can find it.
   */
  lemma ProcessesAreOnRecord(run: seq<State>, i: nat, id: Id)
    requires IsRun(run) && i < |run| && id in run[i].agents && (run[i].agents[id].sent || run[i].agents[id].remote == Live)
    ensures run[i].agents[id].bound.Some? && id in run[i].hist
    ensures exists k :: 0 <= k < |run[i].hist[id]| && run[i].hist[id][k].remoteFence == run[i].agents[id].bound
  {
    RunInv(run, i);
    AgentIsSound(run[i], id);
    RunOnRecord(run, i);
    assert Recorded(Versions(run[i], id), run[i].agents[id].bound);
  }
}
