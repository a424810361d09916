/**
 * The ownership protocol as a transition system: any number of owner processes, a journal written
 * by compare-and-swap with lost replies, a reconciler acting on foreign records, and the remote side.
 * A crashed process is one whose operations take no further step.
 */
module OwnershipProtocol {
  import opened Text
  import opened OwnershipState
  import opened OwnershipJournal
  import opened OwnedOperations

  /** Where the operation's caller stands (executor.ts, ownedInvocation.ts). Finalizing is never left. */
  datatype Pc = Beginning | Preparing | Binding | Bound | Dispatching | Executing | Finalizing

  /** What a successful persist lets its caller do next. */
  datatype Tag = Plain | BindTag | DispatchTag

  /** One queued persist. */
  datatype Request = Request(patch: Patch, proved: bool, tag: Tag)

  datatype Job =
    | NoJob
    | ReserveJob
    | UpdateJob(request: Request, next: Record, write: Option<nat>)

  datatype Remote = Unlaunched | Live | Exited

  /**
   * One operation with its caller and its remote attempt. `base` is the record begin created, `bound`
   * the fence its caller chose, `sent` whether the invoke frame left, `promised` the remote side's
   * commitment never to launch it. `held` says the owner's registry still lists it.
   */
  datatype Agent = Agent(
    base: Record, op: Op, held: bool, pc: Pc, queue: seq<Request>, job: Job,
    reserveWrite: Option<nat>, bound: Option<Fence>, sent: bool, remote: Remote, promised: bool)

  /** A replace travelling to the API server; `expected` is None for a reservation. */
  datatype Write = Write(
    base: nat, snapshot: seq<Record>, next: seq<Record>, subject: Record, expected: Option<nat>)

  /**
   * `hist` lists every committed version of a record, `everBackground` the operations once
   * background-owned and `born` the journal version at which a record was inserted.
   */
  datatype State = State(
    version: nat, records: seq<Record>, agents: map<Id, Agent>,
    inflight: map<nat, Write>, committed: set<nat>, nextWrite: nat,
    gone: set<Id>, documents: set<Document>,
    hist: map<Id, seq<Record>>, everBackground: set<Id>, born: map<Id, nat>)

  const INIT := State(0, [], map[], map[], {}, 0, {}, {}, map[], {}, map[])

  function WithAgent(s: State, id: Id, a: Agent): State {
    s.(agents := s.agents[id := a])
  }

  /** The registry of one process: the operations it still holds. */
  function OwnersOf(s: State, ownerId: Id): Owners {
    map id | id in s.agents && s.agents[id].held && s.agents[id].base.ownerId == ownerId :: s.agents[id].op
  }

  /** reconcileRecord's test for the absence proof. */
  predicate EligibleForSandboxAbsent(r: Record) {
    r.remoteFence.Some? && r.sandboxUid.Some? && r.resource in {Running, Unknown, StopRequested} && !IsTerminal(r)
  }

  // ---------------------------------------------------------------- steps

  datatype Evidence = ByReceipt(document: Document) | ByAbsence(observedAt: int)

  /** Steps of one operation's process or remote attempt that touch nothing else. */
  datatype Move =
    | ReserveTimeout
    | Bind(fence: Fence)
    | Dispatch(at: int)
    | Send
    | SpawnFailed
    | Finalize
    | Cancel
    | Uncertain
    | GoUnknown(timedOut: bool)
    | Phase
    | Complete(outcome: Outcome, proof: Proof, resource: Resource, children: bool)
    | StartJob(now: int)
    | Acknowledge(expired: bool)
    | GiveUp
    | Forget
    | Launch
    | Exit
    | Promise

  datatype Step =
    | Local(id: Id, move: Move)
    | Begin(record: Record)
    | SendReserve(id: Id)
    | SendUpdate(id: Id)
    | Retry(id: Id)
    // a reconciler that does not hold the operation
    | Settle(id: Id, read: nat, evidence: Evidence)
    // the API server, the remote side and the cluster
    | Commit(write: nat)
    | Issue(document: Document)
    | Vanish(uid: Id)

  function NewAgent(r: Record): Agent {
    Agent(r, Create(r), true, Beginning, [], ReserveJob, None, None, false, Unlaunched, false)
  }

  function Enqueue(a: Agent, op: Op, patch: Patch, proved: bool, tag: Tag): Agent {
    a.(op := op, queue := a.queue + [Request(patch, proved, tag)])
  }

  function ResourcePatch(resource: Resource): Patch {
    EMPTY_PATCH.(resource := Some(resource))
  }

  /** A persist that succeeded for its caller. */
  function Finished(a: Agent, tag: Tag): Agent {
    if tag == BindTag && a.pc == Binding then a.(pc := Bound)
    else if tag == DispatchTag && a.pc == Dispatching then
      if a.op.aborted then a.(pc := Finalizing) else a.(pc := Executing, op := a.op.(dispatched := true))
    else a
  }

  /** A persist that threw. */
  function Broken(a: Agent, tag: Tag): Agent {
    var marked := a.(op := MarkUncertain(a.op), job := NoJob);
    if (tag == BindTag && a.pc == Binding) || (tag == DispatchTag && a.pc == Dispatching)
    then marked.(pc := Finalizing) else marked
  }

  ghost predicate BeginEnabled(s: State, r: Record) {
    && r.operationId !in s.agents
    && r.revision == 0 && r.resource == Reserved && r.outcome == Pending
    && r.sandboxUid.None? && r.dispatchedAt.None? && r.remoteFence.None?
    && |OwnersOf(s, r.ownerId)| < RECORD_LIMIT
    && (r.parent.Some? ==>
          && r.parent.value in OwnersOf(s, r.ownerId)
          && var p := s.agents[r.parent.value].op;
             !p.aborted && !IsTerminal(p.record) && p.record.resource !in {Unknown, StopRequested, BackgroundOwned})
    && forall id :: id in OwnersOf(s, r.ownerId) ==>
         BeginConflict(OwnersOf(s, r.ownerId), r, s.agents[id].op.record) == Some(false)
  }

  ghost function ReserveResult(s: State, id: Id): ChangeResult
    requires id in s.agents
  {
    var base := s.agents[id].base;
    var owners := OwnersOf(s, base.ownerId);
    Reserve(s.records, base, other => BeginConflict(owners, base, other))
  }

  function UpdateResult(s: State, next: Record): ChangeResult {
    if next.revision == 0 then Blocked else Update(s.records, next, next.revision - 1)
  }

  /** The replace an update sends. */
  function UpdateWrite(s: State, next: Record): Write
    requires UpdateResult(s, next).Changed?
  {
    var r := UpdateResult(s, next);
    Write(s.version, s.records, r.records, r.result, Some(next.revision - 1))
  }

  function SettledRecord(r: Record, resource: Resource, at: int): Record {
    r.(revision := r.revision + 1, resource := resource,
       outcome := if r.outcome == Pending then Failed else r.outcome, updatedAt := at)
  }

  /** What a reconciler without the local owner writes, from the journal row it read and its evidence. */
  function SettleNext(s: State, r: Record, evidence: Evidence): Option<Record> {
    if IsTerminal(r) || r.remoteFence.None? then None
    else match evidence
      case ByReceipt(d) =>
        var resource := ParseRemoteReceipt(d, r.remoteFence.value);
        if d in s.documents && resource in {Some(Stopped), Some(NotStarted), Some(BackgroundOwned)}
        then Some(SettledRecord(r, resource.value, d.observedAt)) else None
      case ByAbsence(at) =>
        if EligibleForSandboxAbsent(r) && r.sandboxUid.value in s.gone && at >= ObservationFloor(r)
        then Some(SettledRecord(r, Stopped, at)) else None
  }

  /** The row was read from some committed version; its update is made against the journal of now. */
  ghost predicate SettleEnabled(s: State, id: Id, read: nat, evidence: Evidence) {
    && id in s.hist && read < |s.hist[id]|
    && var next := SettleNext(s, s.hist[id][read], evidence);
       next.Some? && UpdateResult(s, next.value).Changed? && ValidRecords(UpdateResult(s, next.value).records)
  }

  /** The evidence a completion carries must exist in the world; two proofs need a finished caller. */
  predicate EvidenceExists(s: State, a: Agent, proof: Proof) {
    match proof.kind
    case NeverDispatched => a.pc == Finalizing
    case CoordinatorSettled => a.pc == Finalizing
    case RemoteReceipt(d) => d.Some? ==> d.value in s.documents
    case BackgroundInventory(d) => d.Some? ==> d.value in s.documents
    case SandboxAbsent(_) => EligibleForSandboxAbsent(a.op.record) && a.op.record.sandboxUid.value in s.gone
  }

  ghost predicate AgentEnabled(s: State, a: Agent, id: Id, move: Move) {
    match move
    case ReserveTimeout => a.job == ReserveJob && a.pc == Beginning
    case Bind(f) => a.pc == Preparing && BindAllowed(a.op, f) && !a.op.aborted
                       && a.op.record.resource !in {Unknown, StopRequested}
    case Dispatch(_) => a.pc == Bound && a.bound.Some? && DispatchAllowed(a.op, a.bound.value.sandboxUid)
    case Send => a.pc == Executing && !a.sent
    case SpawnFailed => a.pc == Executing && !a.sent
    case Finalize => a.pc != Beginning
    case Cancel => BeginCancel(a.op).Some?
    case Uncertain => true
    case GoUnknown(timedOut) => BeginUnknown(a.op, timedOut).Some?
    case Phase => true
    case Complete(outcome, proof, resource, children) =>
      CompleteAllowed(a.op, outcome, proof, resource, children) && EvidenceExists(s, a, proof)
    case StartJob(_) => a.job == NoJob && |a.queue| > 0
    case Acknowledge(_) =>
      || (a.job == ReserveJob && a.reserveWrite.Some? && a.reserveWrite.value in s.committed)
      || (a.job.UpdateJob? && a.job.write.Some? && a.job.write.value in s.committed)
    case GiveUp => a.job != NoJob
    case Forget => IsTerminal(a.op.record)
                      && forall c :: c in s.agents && s.agents[c].base.parent == Some(id) ==> IsTerminal(s.agents[c].op.record)
    case Launch => a.sent && a.remote == Unlaunched && !a.promised
                      && a.bound.Some? && a.bound.value.sandboxUid !in s.gone
    case Exit => a.remote == Live
    case Promise => a.remote == Unlaunched
  }

  function AgentAfter(a: Agent, move: Move): Agent {
    match move
    case ReserveTimeout => a.(op := SettleBeginFailure(a.op, true, false), pc := Finalizing)
    case Bind(f) =>
      Enqueue(a.(pc := Binding, bound := Some(f)), a.op,
              EMPTY_PATCH.(remoteFence := Some(f), sandboxUid := Some(f.sandboxUid)), false, BindTag)
    case Dispatch(at) =>
      if a.bound.None? then a
      else Enqueue(a.(pc := Dispatching), a.op,
                   Patch(Some(Running), Some(a.bound.value.sandboxUid), None,
                         if a.op.record.dispatchedAt.Some? then a.op.record.dispatchedAt else Some(at)), false, DispatchTag)
    case Send => a.(sent := true)
    case SpawnFailed => a.(op := a.op.(dispatched := false), pc := Finalizing)
    case Finalize => a.(pc := Finalizing)
    case Cancel =>
      if BeginCancel(a.op).None? then a
      else Enqueue(a, BeginCancel(a.op).value, ResourcePatch(StopRequested), false, Plain)
    case Uncertain => a.(op := MarkUncertain(a.op))
    case GoUnknown(timedOut) =>
      if BeginUnknown(a.op, timedOut).None? then a
      else Enqueue(a, BeginUnknown(a.op, timedOut).value, ResourcePatch(Unknown), false, Plain)
    case Phase => Enqueue(a, a.op, EMPTY_PATCH, false, Plain)
    case Complete(outcome, _, resource, _) =>
      Enqueue(a, SettleOutcome(a.op, outcome), ResourcePatch(resource), true, Plain)
    case StartJob(now) =>
      if |a.queue| == 0 then a
      else
        var q := a.queue[0];
        var popped := a.(queue := a.queue[1..]);
        var next := PersistNext(a.op, q.patch, q.proved, now);
        if next.None? then Finished(popped, q.tag) else popped.(job := UpdateJob(q, next.value, None))
    case Acknowledge(expired) =>
      if a.job.UpdateJob? then
        var q := a.job.request;
        var stored := a.(op := PersistCommitted(a.op, a.job.next, q.proved, expired), job := NoJob);
        if expired then stored else Finished(stored, q.tag)
      else if a.pc == Beginning then a.(op := AcceptReservation(a.op, a.base), pc := Preparing, job := NoJob)
      else a.(job := NoJob)
    case GiveUp =>
      if a.job.UpdateJob? then Broken(a, a.job.request.tag)
      else if a.pc == Beginning then a.(op := SettleBeginFailure(a.op, false, false), pc := Finalizing, job := NoJob)
      else a.(job := NoJob)
    case Forget => a.(held := false)
    case Launch => a.(remote := Live)
    case Exit => a.(remote := Exited)
    case Promise => a.(promised := true)
  }

  /** Signed receipts tell the truth about the attempt whose key signed them; anything else may be forged. */
  predicate Truthful(s: State, d: Document) {
    d.signer == d.fence ==>
      && d.fence.operationId in s.agents
      && var a := s.agents[d.fence.operationId];
         && a.bound == Some(d.fence)
         && (d.resource == Stopped ==> a.remote == Exited)
         && (d.resource == NotStarted ==> a.promised)
  }

  ghost predicate Enabled(s: State, step: Step) {
    match step
    case Begin(r) => BeginEnabled(s, r)
    case SendReserve(id) => id in s.agents && s.agents[id].job == ReserveJob && s.agents[id].reserveWrite.None?
    case SendUpdate(id) => id in s.agents && s.agents[id].job.UpdateJob? && s.agents[id].job.write.None?
    case Retry(id) =>
      && id in s.agents
      && var w := CurrentWrite(s.agents[id]);
         w.Some? && w.value in s.inflight && s.inflight[w.value].base < s.version
    case Settle(id, read, evidence) => SettleEnabled(s, id, read, evidence)
    case Commit(n) => n in s.inflight && s.inflight[n].base == s.version
    case Issue(d) => Truthful(s, d)
    case Vanish(_) => true
    case Local(id, move) => id in s.agents && AgentEnabled(s, s.agents[id], id, move)
  }

  function CurrentWrite(a: Agent): Option<nat> {
    if a.job == ReserveJob then a.reserveWrite else if a.job.UpdateJob? then a.job.write else None
  }

  function WithWrite(s: State, w: Write): State {
    s.(inflight := s.inflight[s.nextWrite := w], nextWrite := s.nextWrite + 1)
  }

  ghost function AfterSendReserve(s: State, id: Id): State
    requires id in s.agents
  {
    var a := s.agents[id];
    var r := ReserveResult(s, id);
    if r.Changed? && ValidRecords(r.records) then
      WithWrite(WithAgent(s, id, a.(reserveWrite := Some(s.nextWrite))), Write(s.version, s.records, r.records, r.result, None))
    else WithAgent(s, id, RefusedReserve(a, r.Blocked?))
  }

  function RefusedReserve(a: Agent, blocked: bool): Agent {
    if a.pc == Beginning then a.(op := SettleBeginFailure(a.op, false, blocked), pc := Finalizing, job := NoJob)
    else a.(job := NoJob)
  }

  ghost function AfterSendUpdate(s: State, id: Id): State
    requires id in s.agents && s.agents[id].job.UpdateJob?
  {
    var a := s.agents[id];
    var next := a.job.next;
    var r := UpdateResult(s, next);
    if r.Changed? && ValidRecords(r.records) then
      WithAgent(WithWrite(s, UpdateWrite(s, next)), id, a.(job := a.job.(write := Some(s.nextWrite))))
    else WithAgent(s, id, Broken(a, a.job.request.tag))
  }

  function AfterRetry(s: State, id: Id): State
    requires id in s.agents && CurrentWrite(s.agents[id]).Some?
  {
    var a := s.agents[id];
    var dropped := s.(inflight := s.inflight - {CurrentWrite(a).value});
    WithAgent(dropped, id, if a.job == ReserveJob then a.(reserveWrite := None) else a.(job := a.job.(write := None)))
  }

  function AfterCommit(s: State, n: nat): State
    requires n in s.inflight
  {
    var w := s.inflight[n];
    var id := w.subject.operationId;
    s.(version := s.version + 1, records := w.next,
       inflight := s.inflight - {n}, committed := s.committed + {n},
       hist := s.hist[id := (if w.expected.Some? && id in s.hist then s.hist[id] else []) + [w.subject]],
       everBackground := if w.subject.resource == BackgroundOwned then s.everBackground + {id} else s.everBackground,
       born := if id in s.born then s.born else s.born[id := s.version])
  }

  /** A vanished UID takes its processes with it. */
  function AfterVanish(s: State, uid: Id): State {
    s.(gone := s.gone + {uid},
       agents := map id | id in s.agents ::
         var a := s.agents[id];
         if a.bound.Some? && a.bound.value.sandboxUid == uid && a.remote == Live then a.(remote := Exited) else a)
  }

  ghost function Apply(s: State, step: Step): State
    requires Enabled(s, step)
  {
    match step
    case Begin(r) =>
      WithAgent(s, r.operationId, NewAgent(r))
    case SendReserve(id) => AfterSendReserve(s, id)
    case SendUpdate(id) => AfterSendUpdate(s, id)
    case Retry(id) => AfterRetry(s, id)
    case Settle(id, read, evidence) =>
      WithWrite(s, UpdateWrite(s, SettleNext(s, s.hist[id][read], evidence).value))
    case Commit(n) => AfterCommit(s, n)
    case Issue(d) => s.(documents := s.documents + {d})
    case Vanish(uid) => AfterVanish(s, uid)
    case Local(id, move) => WithAgent(s, id, AgentAfter(s.agents[id], move))
  }

  ghost predicate Next(s: State, s': State) {
    exists step :: Enabled(s, step) && s' == Apply(s, step)
  }

  ghost predicate NextAt(run: seq<State>, i: nat)
    requires i + 1 < |run|
  {
    Next(run[i], run[i + 1])
  }

  ghost predicate IsRun(run: seq<State>) {
    |run| > 0 && run[0] == INIT && forall i :: 0 <= i < |run| - 1 ==> NextAt(run, i)
  }

  /** The run takes this step at time i. */
  ghost predicate Takes(run: seq<State>, i: nat, step: Step)
    requires i + 1 < |run|
  {
    Enabled(run[i], step) && run[i + 1] == Apply(run[i], step)
  }
}
