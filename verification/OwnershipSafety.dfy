/** What every run of the ownership protocol keeps. */
module OwnershipSafety {
  import opened Text
  import opened OwnershipState
  import opened OwnershipJournal
  import opened OwnedOperations
  import opened OwnershipProtocol

  // ---------------------------------------------------------------- the invariant

  /** The attempt has no process and can never get one. */
  predicate Sealed(a: Agent, gone: set<Id>) {
    || (a.pc == Finalizing && !a.sent)
    || a.remote == Exited
    || a.promised
    || (a.bound.Some? && a.bound.value.sandboxUid in gone)
  }

  predicate SameIdentity(r: Record, base: Record) {
    && r.operationId == base.operationId && r.attemptId == base.attemptId && r.invocationId == base.invocationId
    && r.ownerId == base.ownerId && r.kind == base.kind && r.scope == base.scope && r.parent == base.parent
  }

  predicate FenceFits(r: Record, bound: Option<Fence>) {
    r.remoteFence.Some? ==> bound == r.remoteFence && r.sandboxUid == Some(r.remoteFence.value.sandboxUid)
  }

  /** A version of the agent's record that tells the truth about it. */
  predicate Good(a: Agent, gone: set<Id>, r: Record) {
    && SameIdentity(r, a.base)
    && FenceFits(r, a.bound)
    && (IsTerminal(r) ==> Sealed(a, gone))
  }

  predicate GoodRequest(a: Agent, gone: set<Id>, q: Request) {
    && (q.patch.sandboxUid.Some? ==> a.bound.Some? && q.patch.sandboxUid.value == a.bound.value.sandboxUid)
    && (q.patch.remoteFence.Some? ==> a.bound == q.patch.remoteFence && q.patch.sandboxUid.Some?)
    && (q.patch.resource in {Some(Stopped), Some(NotStarted)} ==> Sealed(a, gone))
  }

  /** An outcome may leave Pending once. */
  predicate OutcomeStep(before: Outcome, after: Outcome) {
    before == Pending || before == after
  }

  /** What an owner may try to write over the version it has seen. */
  predicate Successor(before: Record, after: Record) {
    && SameIdentity(after, before)
    && after.revision == before.revision + 1
    && OutcomeStep(before.outcome, after.outcome)
  }

  /** One committed update of a record. */
  predicate RecordStep(before: Record, after: Record) {
    Successor(before, after) && (IsTerminal(before) ==> IsTerminal(after))
  }

  predicate GoodJob(a: Agent, gone: set<Id>) {
    a.job.UpdateJob? ==>
      && GoodRequest(a, gone, a.job.request)
      && Good(a, gone, a.job.next)
      && Successor(a.op.acknowledged, a.job.next)
      && OutcomeStep(a.job.next.outcome, a.op.callerOutcome)
  }

  predicate GoodCaller(a: Agent, gone: set<Id>) {
    && (a.sent ==> a.op.dispatched && a.bound.Some?)
    && (a.op.dispatched ==> a.pc in {Executing, Finalizing})
    && (a.pc == Executing ==> a.op.dispatched)
    && (a.pc in {Beginning, Preparing} ==> a.bound.None?)
    && (a.bound.Some? ==> a.bound.value.operationId == a.base.operationId)
    && (a.pc in {Binding, Bound, Dispatching, Executing} ==> a.bound.Some?)
    && (a.remote == Live ==> a.sent && !a.promised && a.bound.value.sandboxUid !in gone)
  }

  predicate GoodOp(a: Agent, gone: set<Id>) {
    && Good(a, gone, a.op.record)
    && Good(a, gone, a.op.acknowledged)
    && OutcomeStep(a.op.acknowledged.outcome, a.op.callerOutcome)
    && (forall i :: 0 <= i < |a.queue| ==> GoodRequest(a, gone, a.queue[i]))
  }

  /** The acknowledged record is the reservation or a committed version. */
  predicate AckKnown(a: Agent, versions: seq<Record>) {
    || a.op.acknowledged == a.base
    || (a.op.acknowledged.revision < |versions| && versions[a.op.acknowledged.revision] == a.op.acknowledged)
  }

  predicate NewRecord(r: Record) {
    r.revision == 0 && r.resource == Reserved && r.outcome == Pending && r.remoteFence.None?
  }

  /** The part of an agent's invariant that reads nothing but the agent. */
  predicate Sound(a: Agent, gone: set<Id>) {
    NewRecord(a.base) && GoodOp(a, gone) && GoodJob(a, gone) && GoodCaller(a, gone)
  }

  /** The write of a running update is still travelling or has become the next version. */
  predicate JobWriteKnown(s: State, job: Job, versions: seq<Record>) {
    job.UpdateJob? && job.write.Some? ==>
      var n := job.write.value;
      && n < s.nextWrite
      && (n in s.inflight ==> s.inflight[n].subject == job.next)
      && (n in s.committed ==> job.next.revision < |versions| && versions[job.next.revision] == job.next)
  }

  predicate GoodAgent(s: State, id: Id)
    requires id in s.agents
  {
    var a := s.agents[id];
    && a.base.operationId == id
    && Sound(a, s.gone)
    && AckKnown(a, Versions(s, id))
    && JobWriteKnown(s, a.job, Versions(s, id))
    && (a.base.parent.Some? ==> a.base.parent.value in s.agents && s.agents[a.base.parent.value].base.ownerId == a.base.ownerId)
  }

  function Versions(s: State, id: Id): seq<Record> {
    if id in s.hist then s.hist[id] else []
  }

  /** All versions of one record, each a legal update of the one before. */
  predicate Chain(a: Agent, gone: set<Id>, versions: seq<Record>) {
    && |versions| > 0 && versions[0] == a.base
    && (forall k :: 0 <= k < |versions| ==> versions[k].revision == k && Good(a, gone, versions[k]))
    && (forall k :: 0 < k < |versions| ==> StepAt(versions, k))
  }

  predicate StepAt(versions: seq<Record>, k: nat)
    requires 0 < k < |versions|
  {
    RecordStep(versions[k - 1], versions[k])
  }

  predicate GoodHistory(s: State) {
    forall id :: id in s.hist ==>
      && id in s.agents && Chain(s.agents[id], s.gone, s.hist[id])
      && s.agents[id].reserveWrite.Some? && s.agents[id].reserveWrite.value in s.committed
      && id in s.born && s.born[id] < s.version
  }

  predicate BornKnown(s: State) {
    forall id :: id in s.born ==> id in s.hist
  }

  /** Each journal row is the latest version of its record. */
  predicate GoodRecords(s: State) {
    && UniqueIds(s.records)
    && forall i :: 0 <= i < |s.records| ==> RowIsLatest(s, s.records[i])
  }

  predicate RowIsLatest(s: State, r: Record) {
    && r.operationId in s.hist && |s.hist[r.operationId]| == r.revision + 1
    && s.hist[r.operationId][r.revision] == r
    && (r.resource == BackgroundOwned ==> r.operationId in s.everBackground)
  }

  /** What begin's admission test establishes about the rows it read. */
  predicate AdmittedAgainst(snapshot: seq<Record>, r: Record) {
    forall i :: 0 <= i < |snapshot| && !IsTerminal(snapshot[i]) && AdmissionScopeConflicts(snapshot[i], r.scope) == Some(true) ==>
      && snapshot[i].resource != Unknown && snapshot[i].resource != StopRequested
      && (snapshot[i].ownerId != r.ownerId ==> snapshot[i].resource == BackgroundOwned)
  }

  predicate GoodReservation(s: State, n: nat, w: Write) {
    && w.subject.operationId in s.agents
    && w.subject == s.agents[w.subject.operationId].base && NewRecord(w.subject)
    && s.agents[w.subject.operationId].reserveWrite == Some(n)
    && w.subject.operationId !in Ids(w.snapshot)
    && w.next == Compacted(w.snapshot) + [w.subject]
    && AdmittedAgainst(w.snapshot, w.subject)
  }

  predicate GoodUpdate(s: State, w: Write, expected: nat) {
    var id := w.subject.operationId;
    && id in s.hist && expected < |s.hist[id]| && RecordStep(s.hist[id][expected], w.subject)
    && var k := IndexOf(w.snapshot, id);
       k < |w.snapshot| && w.snapshot[k].revision == expected && w.next == w.snapshot[k := w.subject]
  }

  predicate GoodWrite(s: State, n: nat, w: Write) {
    && n < s.nextWrite && n !in s.committed
    && w.base <= s.version && (w.base == s.version ==> w.snapshot == s.records)
    && UniqueIds(w.next)
    && w.subject.operationId in s.agents
    && Good(s.agents[w.subject.operationId], s.gone, w.subject)
    && match w.expected
       case None => GoodReservation(s, n, w)
       case Some(expected) => GoodUpdate(s, w, expected)
  }

  predicate GoodWrites(s: State) {
    && (forall n :: n in s.inflight ==> GoodWrite(s, n, s.inflight[n]))
    && (forall n :: n in s.committed ==> n < s.nextWrite)
  }

  predicate GoodDocuments(s: State) {
    forall d :: d in s.documents ==> Truthful(s, d)
  }

  predicate GoodAgents(s: State) {
    forall id {:trigger GoodAgent(s, id)} :: id in s.agents ==> GoodAgent(s, id)
  }

  /**
   * Admission exclusivity: of two rows of different owners whose scopes conflict, the one inserted
   * first is terminal or has been background-owned.
   */
  predicate Exclusive(s: State) {
    forall i, j :: 0 <= i < |s.records| && 0 <= j < |s.records| ==> ExclusivePair(s, s.records[i], s.records[j])
  }

  predicate ExclusivePair(s: State, earlier: Record, later: Record) {
    (&& earlier.operationId in s.born && later.operationId in s.born
     && s.born[earlier.operationId] < s.born[later.operationId]
     && earlier.ownerId != later.ownerId
     && AdmissionScopeConflicts(earlier, later.scope) == Some(true))
    ==> IsTerminal(earlier) || earlier.operationId in s.everBackground
  }

  predicate Inv(s: State) {
    && GoodAgents(s) && GoodHistory(s) && BornKnown(s) && GoodRecords(s) && GoodWrites(s) && GoodDocuments(s) && Exclusive(s)
  }

  // ---------------------------------------------------------------- agents evolve

  /** What a step may do to an agent without disturbing anyone's knowledge of it. */
  predicate Evolves(a: Agent, gone: set<Id>, a': Agent, gone': set<Id>) {
    && a'.base == a.base
    && (a.bound.Some? ==> a'.bound == a.bound)
    && (a.remote == Exited ==> a'.remote == Exited)
    && (a.promised ==> a'.promised)
    && (a.pc == Finalizing ==> a'.pc == Finalizing && a'.sent == a.sent)
    && gone <= gone'
  }

  lemma EvolvesKeepsGood(a: Agent, gone: set<Id>, a': Agent, gone': set<Id>, r: Record)
    requires Evolves(a, gone, a', gone') && Good(a, gone, r)
    ensures Good(a', gone', r)
  {}

  lemma EvolvesKeepsChain(a: Agent, gone: set<Id>, a': Agent, gone': set<Id>, versions: seq<Record>)
    requires Evolves(a, gone, a', gone') && Chain(a, gone, versions)
    ensures Chain(a', gone', versions)
  {}

  // ---------------------------------------------------------------- steps that do not commit

  /** The journal is untouched; writes may be added or dropped and agents evolve. */
  predicate Quiet(s: State, s': State) {
    && s'.version == s.version && s'.records == s.records && s'.hist == s.hist && s'.committed == s.committed
    && s'.everBackground == s.everBackground && s'.born == s.born && s'.nextWrite >= s.nextWrite
    && (forall x :: x in s.agents ==> x in s'.agents && Evolves(s.agents[x], s.gone, s'.agents[x], s'.gone))
    && (forall n :: n in s'.inflight && n < s.nextWrite ==> n in s.inflight && s'.inflight[n] == s.inflight[n])
  }

  predicate SameReserve(s: State, s': State, id: Id)
    requires id in s.agents && id in s'.agents
  {
    s'.agents[id].reserveWrite == s.agents[id].reserveWrite
  }

  /** An agent that only its reserveWrite may distinguish from before. */
  lemma QuietAgent(s: State, s': State, x: Id)
    requires Quiet(s, s') && x in s.agents && x in s'.agents && GoodAgent(s, x) && s'.gone == s.gone
    requires s'.agents[x].(reserveWrite := None) == s.agents[x].(reserveWrite := None)
    ensures GoodAgent(s', x)
  {
    assert Versions(s', x) == Versions(s, x);
    assert Sound(s'.agents[x], s'.gone) by { SoundIgnoresReserve(s.agents[x], s'.agents[x], s.gone); }
  }

  lemma SoundIgnoresReserve(a: Agent, a': Agent, gone: set<Id>)
    requires Sound(a, gone) && a'.(reserveWrite := None) == a.(reserveWrite := None)
    ensures Sound(a', gone)
  {
    assert a' == a.(reserveWrite := a'.reserveWrite);
  }

  lemma QuietWrite(s: State, s': State, n: nat, w: Write)
    requires Quiet(s, s') && GoodWrite(s, n, w)
    requires w.expected.None? ==> SameReserve(s, s', w.subject.operationId)
    ensures GoodWrite(s', n, w)
  {
    var x := w.subject.operationId;
    EvolvesKeepsGood(s.agents[x], s.gone, s'.agents[x], s'.gone, w.subject);
    match w.expected {
      case None => assert GoodReservation(s', n, w);
      case Some(expected) => assert GoodUpdate(s', w, expected);
    }
  }

  lemma QuietWrites(s: State, s': State)
    requires Quiet(s, s') && GoodWrites(s)
    requires forall n :: n in s'.inflight && n < s.nextWrite && s.inflight[n].expected.None?
               ==> s.inflight[n].subject.operationId in s.agents && SameReserve(s, s', s.inflight[n].subject.operationId)
    requires forall n :: n in s'.inflight && n >= s.nextWrite ==> GoodWrite(s', n, s'.inflight[n])
    ensures GoodWrites(s')
  {
    forall n | n in s'.inflight ensures GoodWrite(s', n, s'.inflight[n]) {
      if n < s.nextWrite { QuietWrite(s, s', n, s.inflight[n]); }
    }
  }

  lemma QuietHistory(s: State, s': State)
    requires Quiet(s, s') && GoodHistory(s)
    requires forall id :: id in s.hist && id in s.agents ==> SameReserve(s, s', id)
    ensures GoodHistory(s')
  {
    forall id | id in s'.hist ensures Chain(s'.agents[id], s'.gone, s'.hist[id]) {
      EvolvesKeepsChain(s.agents[id], s.gone, s'.agents[id], s'.gone, s.hist[id]);
    }
  }

  lemma QuietDocuments(s: State, s': State)
    requires Quiet(s, s') && GoodDocuments(s) && s'.documents == s.documents
    ensures GoodDocuments(s')
  {
    forall d | d in s'.documents ensures Truthful(s', d) { assert Truthful(s, d); }
  }

  /** The journal part of the invariant only reads the journal. */
  lemma JournalKeeps(s: State, s': State)
    requires GoodRecords(s) && BornKnown(s) && Exclusive(s)
    requires s'.records == s.records && s'.born == s.born && s'.everBackground == s.everBackground && s'.hist == s.hist
    ensures GoodRecords(s') && BornKnown(s') && Exclusive(s')
  {
    forall i, j | 0 <= i < |s'.records| && 0 <= j < |s'.records| ensures ExclusivePair(s', s'.records[i], s'.records[j]) {
      assert ExclusivePair(s, s.records[i], s.records[j]);
    }
  }

  lemma OtherAgentsKeep(s: State, id: Id, a': Agent)
    requires GoodAgents(s) && id in s.agents && Evolves(s.agents[id], s.gone, a', s.gone)
    requires GoodAgent(WithAgent(s, id, a'), id)
    ensures GoodAgents(WithAgent(s, id, a'))
  {
    var s' := WithAgent(s, id, a');
    forall x | x in s'.agents ensures GoodAgent(s', x) {
      if x != id { QuietAgent(s, s', x); }
    }
  }

  /** Steps that leave every document and every reserveWrite alone and add only good writes. */
  predicate Tame(s: State, s': State) {
    && Quiet(s, s')
    && s'.documents == s.documents
    && (forall n :: n in s'.inflight && n >= s.nextWrite ==> GoodWrite(s', n, s'.inflight[n]))
    && (forall id :: id in s.agents ==> SameReserve(s, s', id))
  }

  lemma TameKeepsWrites(s: State, s': State)
    requires GoodWrites(s) && Tame(s, s')
    ensures GoodWrites(s')
  {
    WriteSubjectsExist(s, s');
    QuietWrites(s, s');
  }

  lemma TameKeeps(s: State, s': State)
    requires Inv(s) && Tame(s, s') && GoodAgents(s')
    ensures Inv(s')
  {
    TameKeepsWrites(s, s');
    QuietHistory(s, s');
    QuietDocuments(s, s');
    JournalKeeps(s, s');
  }

  lemma ReplacementIsTame(s: State, id: Id, a': Agent)
    requires GoodWrites(s) && id in s.agents
    requires Evolves(s.agents[id], s.gone, a', s.gone) && a'.reserveWrite == s.agents[id].reserveWrite
    ensures Tame(s, WithAgent(s, id, a'))
  {
    WritesAreNumbered(s);
    WithAgentIsTame(s, id, a');
  }

  lemma WithAgentIsTame(s: State, id: Id, a': Agent)
    requires (forall n :: n in s.inflight ==> n < s.nextWrite) && id in s.agents
    requires Evolves(s.agents[id], s.gone, a', s.gone) && a'.reserveWrite == s.agents[id].reserveWrite
    ensures Tame(s, WithAgent(s, id, a'))
  {}

  lemma WritesAreNumbered(s: State)
    requires GoodWrites(s)
    ensures forall n :: n in s.inflight ==> n < s.nextWrite
  {
    forall n | n in s.inflight ensures n < s.nextWrite { assert GoodWrite(s, n, s.inflight[n]); }
  }

  /** A step of one agent that keeps that agent good keeps everything. */
  lemma AgentStepKeeps(s: State, id: Id, a': Agent)
    requires Inv(s) && id in s.agents
    requires Evolves(s.agents[id], s.gone, a', s.gone) && a'.reserveWrite == s.agents[id].reserveWrite
    requires GoodAgent(WithAgent(s, id, a'), id)
    ensures Inv(WithAgent(s, id, a'))
  {
    ReplacementIsTame(s, id, a');
    OtherAgentsKeep(s, id, a');
    TameKeeps(s, WithAgent(s, id, a'));
  }

  lemma WriteSubjectsExist(s: State, s': State)
    requires GoodWrites(s) && Quiet(s, s')
    ensures forall n :: n in s'.inflight && n < s.nextWrite ==> s.inflight[n].subject.operationId in s.agents
  {
    forall n | n in s'.inflight && n < s.nextWrite ensures s.inflight[n].subject.operationId in s.agents {
      assert GoodWrite(s, n, s.inflight[n]);
    }
  }

  // ---------------------------------------------------------------- steps of one agent

  lemma EvolvesKeepsRequests(a: Agent, gone: set<Id>, a': Agent, gone': set<Id>)
    requires Evolves(a, gone, a', gone')
    ensures forall q :: GoodRequest(a, gone, q) ==> GoodRequest(a', gone', q)
  {}

  predicate KeepsSound(a: Agent, gone: set<Id>, a': Agent) {
    Sound(a', gone) && Evolves(a, gone, a', gone) && a'.reserveWrite == a.reserveWrite
  }

  /** A persist queued by the caller. */
  lemma EnqueueSound(a: Agent, gone: set<Id>, moved: Agent, op: Op, patch: Patch, proved: bool, tag: Tag)
    requires Sound(a, gone) && Evolves(a, gone, moved, gone) && moved.reserveWrite == a.reserveWrite
    requires moved.queue == a.queue && moved.job == a.job && moved.sent == a.sent && moved.remote == a.remote
    requires moved.promised == a.promised && op.acknowledged == a.op.acknowledged && op.dispatched == a.op.dispatched
    requires OutcomeStep(a.op.callerOutcome, op.callerOutcome)
    requires Good(moved, gone, op.record)
    requires GoodRequest(moved, gone, Request(patch, proved, tag))
    requires GoodCaller(moved.(op := op), gone)
    ensures KeepsSound(a, gone, Enqueue(moved, op, patch, proved, tag))
  {
    var a' := Enqueue(moved, op, patch, proved, tag);
    EvolvesKeepsRequests(a, gone, a', gone);
    EvolvesKeepsGood(a, gone, a', gone, a.op.acknowledged);
    if a.job.UpdateJob? { EvolvesKeepsGood(a, gone, a', gone, a.job.next); }
    assert GoodOp(a', gone);
    assert GoodJob(a', gone);
  }

  lemma BindSound(a: Agent, gone: set<Id>, f: Fence)
    requires Sound(a, gone) && a.pc == Preparing && BindAllowed(a.op, f)
    ensures KeepsSound(a, gone, AgentAfter(a, Bind(f)))
  {
    var moved := a.(pc := Binding, bound := Some(f));
    assert a.bound.None? && !a.sent && a.remote != Live;
    EvolvesKeepsGood(a, gone, moved, gone, a.op.record);
    EnqueueSound(a, gone, moved, a.op, EMPTY_PATCH.(remoteFence := Some(f), sandboxUid := Some(f.sandboxUid)), false, BindTag);
  }

  lemma DispatchSound(a: Agent, gone: set<Id>, at: int)
    requires Sound(a, gone) && a.pc == Bound
    ensures KeepsSound(a, gone, AgentAfter(a, Dispatch(at)))
  {
    var moved := a.(pc := Dispatching);
    assert !a.op.dispatched && !a.sent;
    EvolvesKeepsGood(a, gone, moved, gone, a.op.record);
    EnqueueSound(a, gone, moved, a.op,
                 Patch(Some(Running), Some(a.bound.value.sandboxUid), None,
                       if a.op.record.dispatchedAt.Some? then a.op.record.dispatchedAt else Some(at)), false, DispatchTag);
  }

  lemma CancelSound(a: Agent, gone: set<Id>)
    requires Sound(a, gone) && BeginCancel(a.op).Some?
    ensures KeepsSound(a, gone, AgentAfter(a, Cancel))
  {
    EnqueueSound(a, gone, a, BeginCancel(a.op).value, ResourcePatch(StopRequested), false, Plain);
  }

  lemma GoUnknownSound(a: Agent, gone: set<Id>, timedOut: bool)
    requires Sound(a, gone) && BeginUnknown(a.op, timedOut).Some?
    ensures KeepsSound(a, gone, AgentAfter(a, GoUnknown(timedOut)))
  {
    EnqueueSound(a, gone, a, BeginUnknown(a.op, timedOut).value, ResourcePatch(Unknown), false, Plain);
  }

  lemma PhaseSound(a: Agent, gone: set<Id>)
    requires Sound(a, gone)
    ensures KeepsSound(a, gone, AgentAfter(a, Phase))
  {
    EnqueueSound(a, gone, a, a.op, EMPTY_PATCH, false, Plain);
  }

  /** Every accepted proof of a terminal resource seals the attempt. */
  lemma ProofSeals(s: State, id: Id, outcome: Outcome, proof: Proof, resource: Resource, children: bool)
    requires id in s.agents && Sound(s.agents[id], s.gone) && GoodDocuments(s)
    requires s.agents[id].base.operationId == id
    requires CompleteAllowed(s.agents[id].op, outcome, proof, resource, children)
    requires EvidenceExists(s, s.agents[id], proof)
    requires resource == Stopped || resource == NotStarted
    ensures Sealed(s.agents[id], s.gone)
  {
    var a := s.agents[id];
    match proof.kind {
      case NeverDispatched => assert !a.sent;
      case CoordinatorSettled => assert !a.sent;
      case SandboxAbsent(_) => assert a.bound.Some? && a.bound.value.sandboxUid in s.gone;
      case RemoteReceipt(d) => ReceiptSeals(s, id, d.value, resource);
      case BackgroundInventory(d) => ReceiptSeals(s, id, d.value, resource);
    }
  }

  lemma ReceiptSeals(s: State, id: Id, d: Document, resource: Resource)
    requires id in s.agents && GoodDocuments(s) && d in s.documents
    requires d.fence.operationId == id
    requires d.signer == d.fence
    requires d.resource == resource && (resource == Stopped || resource == NotStarted)
    ensures Sealed(s.agents[id], s.gone)
  {
    assert Truthful(s, d);
  }

  lemma CompleteSound(a: Agent, gone: set<Id>, outcome: Outcome, proof: Proof, resource: Resource, children: bool)
    requires Sound(a, gone)
    requires resource == Stopped || resource == NotStarted ==> Sealed(a, gone)
    ensures KeepsSound(a, gone, AgentAfter(a, Complete(outcome, proof, resource, children)))
  {
    EnqueueSound(a, gone, a, SettleOutcome(a.op, outcome), ResourcePatch(resource), true, Plain);
  }

  // The steps below move the caller or the remote side without queueing.

  lemma MarkUncertainSound(a: Agent, gone: set<Id>)
    requires Sound(a, gone)
    ensures KeepsSound(a, gone, a.(op := MarkUncertain(a.op)))
  {}

  lemma FinalizeSound(a: Agent, gone: set<Id>)
    requires Sound(a, gone)
    ensures KeepsSound(a, gone, a.(pc := Finalizing))
  {
    EvolvesKeepsRequests(a, gone, a.(pc := Finalizing), gone);
  }

  /** Begin failed before any caller existed: the local record may even be closed. */
  lemma BeginFailureSound(a: Agent, gone: set<Id>, mayHaveCommitted: bool, blocked: bool)
    requires Sound(a, gone) && a.pc == Beginning
    ensures KeepsSound(a, gone, a.(op := SettleBeginFailure(a.op, mayHaveCommitted, blocked), pc := Finalizing))
  {
    var a' := a.(op := SettleBeginFailure(a.op, mayHaveCommitted, blocked), pc := Finalizing);
    assert !a.sent;
    EvolvesKeepsRequests(a, gone, a', gone);
  }

  lemma CallerMoveSound(a: Agent, gone: set<Id>, move: Move)
    requires Sound(a, gone) && (move.Send? || move.SpawnFailed?) && a.pc == Executing && !a.sent && a.op.dispatched
    ensures KeepsSound(a, gone, AgentAfter(a, move))
  {
    EvolvesKeepsRequests(a, gone, AgentAfter(a, move), gone);
  }

  lemma RemoteMoveSound(s: State, id: Id, move: Move)
    requires id in s.agents && Sound(s.agents[id], s.gone) && (move.Launch? || move.Exit? || move.Promise? || move.Forget?)
    requires AgentEnabled(s, s.agents[id], id, move)
    ensures KeepsSound(s.agents[id], s.gone, AgentAfter(s.agents[id], move))
  {
    EvolvesKeepsRequests(s.agents[id], s.gone, AgentAfter(s.agents[id], move), s.gone);
  }

  /** The record a persist writes is good, and one legal step after the acknowledged one. */
  lemma PersistNextGood(a: Agent, gone: set<Id>, q: Request, now: int)
    requires Sound(a, gone) && GoodRequest(a, gone, q) && PersistNext(a.op, q.patch, q.proved, now).Some?
    ensures var next := PersistNext(a.op, q.patch, q.proved, now).value;
            Good(a, gone, next) && Successor(a.op.acknowledged, next) && OutcomeStep(next.outcome, a.op.callerOutcome)
  {}

  lemma FinishedSound(a: Agent, gone: set<Id>, tag: Tag)
    requires Sound(a, gone)
    ensures KeepsSound(a, gone, Finished(a, tag))
  {
    if tag == BindTag && a.pc == Binding {
      EvolvesKeepsRequests(a, gone, a.(pc := Bound), gone);
    } else if tag == DispatchTag && a.pc == Dispatching {
      DispatchedSound(a, gone);
    }
  }

  lemma DispatchedSound(a: Agent, gone: set<Id>)
    requires Sound(a, gone) && a.pc == Dispatching
    ensures KeepsSound(a, gone, a.(pc := Executing, op := a.op.(dispatched := true))) && KeepsSound(a, gone, a.(pc := Finalizing))
  {
    EvolvesKeepsRequests(a, gone, a.(pc := Executing, op := a.op.(dispatched := true)), gone);
    FinalizeSound(a, gone);
  }

  lemma PoppedSound(a: Agent, gone: set<Id>)
    requires Sound(a, gone) && |a.queue| > 0
    ensures KeepsSound(a, gone, a.(queue := a.queue[1..]))
  {}

  lemma StartJobSound(a: Agent, gone: set<Id>, now: int)
    requires Sound(a, gone) && a.job == NoJob && |a.queue| > 0
    ensures KeepsSound(a, gone, AgentAfter(a, StartJob(now)))
  {
    var q := a.queue[0];
    var popped := a.(queue := a.queue[1..]);
    assert GoodRequest(a, gone, q);
    var next := PersistNext(a.op, q.patch, q.proved, now);
    PoppedSound(a, gone);
    if next.None? {
      FinishedSound(popped, gone, q.tag);
    } else {
      PersistNextGood(a, gone, q, now);
    }
  }

  lemma CommittedSound(a: Agent, gone: set<Id>, expired: bool)
    requires Sound(a, gone) && a.job.UpdateJob?
    ensures KeepsSound(a, gone, a.(op := PersistCommitted(a.op, a.job.next, a.job.request.proved, expired), job := NoJob))
  {}

  lemma AcknowledgeSound(a: Agent, gone: set<Id>, expired: bool)
    requires Sound(a, gone) && (a.job.UpdateJob? || a.job == ReserveJob)
    ensures KeepsSound(a, gone, AgentAfter(a, Acknowledge(expired)))
  {
    if a.job.UpdateJob? {
      CommittedSound(a, gone, expired);
      var stored := a.(op := PersistCommitted(a.op, a.job.next, a.job.request.proved, expired), job := NoJob);
      FinishedSound(stored, gone, a.job.request.tag);
    } else if a.pc == Beginning {
      EvolvesKeepsRequests(a, gone, AgentAfter(a, Acknowledge(expired)), gone);
    }
  }

  lemma BrokenSound(a: Agent, gone: set<Id>)
    requires Sound(a, gone) && a.job.UpdateJob?
    ensures KeepsSound(a, gone, Broken(a, a.job.request.tag))
  {
    var marked := a.(op := MarkUncertain(a.op), job := NoJob);
    MarkedSound(a, gone);
    FinalizeSound(marked, gone);
  }

  lemma MarkedSound(a: Agent, gone: set<Id>)
    requires Sound(a, gone)
    ensures KeepsSound(a, gone, a.(op := MarkUncertain(a.op), job := NoJob))
  {
    EvolvesKeepsRequests(a, gone, a.(op := MarkUncertain(a.op), job := NoJob), gone);
  }

  lemma RefusedReserveSound(a: Agent, gone: set<Id>, blocked: bool)
    requires Sound(a, gone) && a.job == ReserveJob
    ensures KeepsSound(a, gone, RefusedReserve(a, blocked))
  {
    if a.pc == Beginning { BeginFailureSound(a, gone, false, blocked); }
  }

  /** Every step of an agent keeps it sound. */
  lemma StepSound(s: State, id: Id, move: Move)
    requires id in s.agents && s.agents[id].base.operationId == id && Sound(s.agents[id], s.gone) && GoodDocuments(s)
    requires AgentEnabled(s, s.agents[id], id, move)
    ensures KeepsSound(s.agents[id], s.gone, AgentAfter(s.agents[id], move))
  {
    var a, gone := s.agents[id], s.gone;
    match move {
      case ReserveTimeout => BeginFailureSound(a, gone, true, false);
      case Bind(f) => BindSound(a, gone, f);
      case Dispatch(at) => DispatchSound(a, gone, at);
      case Send => CallerMoveSound(a, gone, move);
      case SpawnFailed => CallerMoveSound(a, gone, move);
      case Finalize => FinalizeSound(a, gone);
      case Cancel => CancelSound(a, gone);
      case Uncertain => MarkUncertainSound(a, gone);
      case GoUnknown(timedOut) => GoUnknownSound(a, gone, timedOut);
      case Phase => PhaseSound(a, gone);
      case Complete(outcome, proof, resource, children) =>
        if resource == Stopped || resource == NotStarted { ProofSeals(s, id, outcome, proof, resource, children); }
        CompleteSound(a, gone, outcome, proof, resource, children);
      case StartJob(now) => StartJobSound(a, gone, now);
      case Acknowledge(expired) => AcknowledgeSound(a, gone, expired);
      case GiveUp =>
        if a.job.UpdateJob? { BrokenSound(a, gone); } else { RefusedReserveSound(a, gone, false); }
      case Forget => RemoteMoveSound(s, id, move);
      case Launch => RemoteMoveSound(s, id, move);
      case Exit => RemoteMoveSound(s, id, move);
      case Promise => RemoteMoveSound(s, id, move);
    }
  }

  /** Only an acknowledgement changes what the agent knows of the journal. */
  lemma StepKnowledge(a: Agent, move: Move)
    ensures var a' := AgentAfter(a, move);
            && (!move.Acknowledge? ==> a'.op.acknowledged == a.op.acknowledged)
            && (move.Acknowledge? && a.job.UpdateJob? ==> a'.op.acknowledged == a.job.next)
            && (move.Acknowledge? && !a.job.UpdateJob? ==> a'.op.acknowledged in {a.op.acknowledged, a.base})
            && (a'.job == a.job || !a'.job.UpdateJob? || a'.job.write.None?)
  {
    if move.Acknowledge? {
      AcknowledgeKnowledge(a, move.expired);
    } else if move.StartJob? {
      StartJobKnowledge(a, move.now);
    } else if move.GiveUp? {
      GiveUpKnowledge(a);
    } else {
      OtherMoveKnowledge(a, move);
    }
  }

  /** No local transition touches what was acknowledged. */
  lemma AckKept(o: Op, outcome: Outcome, timedOut: bool, mayHaveCommitted: bool, blocked: bool)
    ensures MarkUncertain(o).acknowledged == o.acknowledged && SettleOutcome(o, outcome).acknowledged == o.acknowledged
    ensures SettleBeginFailure(o, mayHaveCommitted, blocked).acknowledged == o.acknowledged
    ensures BeginUnknown(o, timedOut).Some? ==> BeginUnknown(o, timedOut).value.acknowledged == o.acknowledged
    ensures BeginCancel(o).Some? ==> BeginCancel(o).value.acknowledged == o.acknowledged
  {}

  lemma OtherMoveKnowledge(a: Agent, move: Move)
    requires !move.Acknowledge? && !move.StartJob? && !move.GiveUp?
    ensures AgentAfter(a, move).op.acknowledged == a.op.acknowledged && AgentAfter(a, move).job == a.job
  {
    if move.GoUnknown? {
      AckKept(a.op, Failed, move.timedOut, false, false);
    } else if move.Complete? {
      AckKept(a.op, move.outcome, false, false, false);
    } else if move.ReserveTimeout? || move.Cancel? || move.Uncertain? {
      AckKept(a.op, Failed, false, true, false);
    }
  }

  lemma AcknowledgeKnowledge(a: Agent, expired: bool)
    ensures var a' := AgentAfter(a, Acknowledge(expired));
            && (a.job.UpdateJob? ==> a'.op.acknowledged == a.job.next)
            && (!a.job.UpdateJob? ==> a'.op.acknowledged in {a.op.acknowledged, a.base})
            && !a'.job.UpdateJob?
  {}

  lemma StartJobKnowledge(a: Agent, now: int)
    ensures var a' := AgentAfter(a, StartJob(now));
            a'.op.acknowledged == a.op.acknowledged && (a'.job == a.job || (a'.job.UpdateJob? && a'.job.write.None?))
  {}

  lemma GiveUpKnowledge(a: Agent)
    ensures AgentAfter(a, GiveUp).op.acknowledged == a.op.acknowledged && AgentAfter(a, GiveUp).job == NoJob
  {
    AckKept(a.op, Failed, false, false, false);
    if a.job.UpdateJob? { BrokenKnowledge(a, a.job.request.tag); }
  }

  lemma BrokenKnowledge(a: Agent, tag: Tag)
    ensures Broken(a, tag).op == MarkUncertain(a.op) && Broken(a, tag).job == NoJob
  {}

  lemma AgentReplaced(s: State, id: Id, a': Agent)
    requires Inv(s) && id in s.agents && KeepsSound(s.agents[id], s.gone, a')
    requires AckKnown(a', Versions(s, id)) && JobWriteKnown(s, a'.job, Versions(s, id))
    ensures Inv(WithAgent(s, id, a'))
  {
    assert GoodAgent(s, id);
    assert Versions(WithAgent(s, id, a'), id) == Versions(s, id);
    AgentStepKeeps(s, id, a');
  }

  lemma KnowledgeKept(s: State, id: Id, move: Move, a': Agent)
    requires id in s.agents && GoodAgent(s, id)
    requires AgentEnabled(s, s.agents[id], id, move)
    requires a' == AgentAfter(s.agents[id], move) && a'.base == s.agents[id].base
    ensures AckKnown(a', Versions(s, id)) && JobWriteKnown(s, a'.job, Versions(s, id))
  {
    StepKnowledge(s.agents[id], move);
  }

  lemma AgentStepInv(s: State, id: Id, move: Move)
    requires Inv(s) && id in s.agents
    requires AgentEnabled(s, s.agents[id], id, move)
    ensures Inv(WithAgent(s, id, AgentAfter(s.agents[id], move)))
  {
    AgentIsSound(s, id);
    StepSound(s, id, move);
    KnowledgeKept(s, id, move, AgentAfter(s.agents[id], move));
    AgentReplaced(s, id, AgentAfter(s.agents[id], move));
  }

  // ---------------------------------------------------------------- the other steps

  lemma IssueInv(s: State, d: Document)
    requires Inv(s) && Truthful(s, d)
    ensures Inv(s.(documents := s.documents + {d}))
  {
    IssueAgents(s, d);
    IssueDocuments(s, d);
    IssueWrites(s, d);
    JournalKeeps(s, s.(documents := s.documents + {d}));
  }

  lemma IssueAgents(s: State, d: Document)
    requires GoodAgents(s) && GoodHistory(s)
    ensures GoodAgents(s.(documents := s.documents + {d})) && GoodHistory(s.(documents := s.documents + {d}))
  {
    SameAgentsKeep(s, s.(documents := s.documents + {d}));
    QuietHistory(s, s.(documents := s.documents + {d}));
  }

  lemma IssueWrites(s: State, d: Document)
    requires GoodWrites(s)
    ensures GoodWrites(s.(documents := s.documents + {d}))
  {
    WritesAreNumbered(s);
    WriteSubjectsExist(s, s.(documents := s.documents + {d}));
    QuietWrites(s, s.(documents := s.documents + {d}));
  }

  lemma IssueDocuments(s: State, d: Document)
    requires GoodDocuments(s) && Truthful(s, d)
    ensures GoodDocuments(s.(documents := s.documents + {d}))
  {
    var s' := s.(documents := s.documents + {d});
    forall x | x in s'.documents ensures Truthful(s', x) { assert x == d || Truthful(s, x); }
  }

  lemma SameAgentsKeep(s: State, s': State)
    requires GoodAgents(s) && Quiet(s, s') && s'.agents == s.agents && s'.gone == s.gone
    ensures GoodAgents(s')
  {
    forall x | x in s'.agents ensures GoodAgent(s', x) { QuietAgent(s, s', x); }
  }

  lemma BeginInv(s: State, r: Record)
    requires Inv(s) && BeginEnabled(s, r)
    ensures Inv(WithAgent(s, r.operationId, NewAgent(r)))
  {
    BeginIsTame(s, NewAgent(r));
    BeginAgents(s, NewAgent(r));
    TameKeeps(s, WithAgent(s, r.operationId, NewAgent(r)));
  }

  lemma BeginIsTame(s: State, a: Agent)
    requires GoodWrites(s) && a.base.operationId !in s.agents
    ensures Tame(s, WithAgent(s, a.base.operationId, a))
  {
    WritesAreNumbered(s);
  }

  lemma BeginAgents(s: State, a: Agent)
    requires GoodAgents(s) && GoodHistory(s) && GoodWrites(s) && a.base.operationId !in s.agents && a == NewAgent(a.base) && NewRecord(a.base)
    requires a.base.parent.Some? ==> a.base.parent.value in s.agents && s.agents[a.base.parent.value].base.ownerId == a.base.ownerId
    ensures GoodAgents(WithAgent(s, a.base.operationId, a))
  {
    var id := a.base.operationId;
    var s' := WithAgent(s, id, a);
    BeginIsTame(s, a);
    assert Sound(a, s.gone);
    assert GoodAgent(s', id);
    forall x | x in s'.agents ensures GoodAgent(s', x) {
      if x != id { QuietAgent(s, s', x); }
    }
  }

  /** A vanished UID seals every attempt bound to it. */
  lemma VanishSound(a: Agent, gone: set<Id>, uid: Id)
    requires Sound(a, gone)
    ensures var a' := if a.bound.Some? && a.bound.value.sandboxUid == uid && a.remote == Live then a.(remote := Exited) else a;
            Sound(a', gone + {uid}) && Evolves(a, gone, a', gone + {uid})
  {
    var a' := if a.bound.Some? && a.bound.value.sandboxUid == uid && a.remote == Live then a.(remote := Exited) else a;
    EvolvesKeepsRequests(a, gone, a', gone + {uid});
  }

  lemma VanishAgents(s: State, uid: Id)
    requires GoodAgents(s)
    ensures GoodAgents(AfterVanish(s, uid)) && Quiet(s, AfterVanish(s, uid))
  {
    var s' := AfterVanish(s, uid);
    forall x | x in s'.agents ensures GoodAgent(s', x) && Evolves(s.agents[x], s.gone, s'.agents[x], s'.gone) {
      assert GoodAgent(s, x);
      VanishSound(s.agents[x], s.gone, uid);
      assert Versions(s', x) == Versions(s, x);
    }
  }

  lemma VanishInv(s: State, uid: Id)
    requires Inv(s)
    ensures Inv(AfterVanish(s, uid))
  {
    VanishAgents(s, uid);
    WritesAreNumbered(s);
    TameKeeps(s, AfterVanish(s, uid));
  }

  // ---------------------------------------------------------------- sending a write

  lemma AddWriteInv(s: State, w: Write)
    requires Inv(s) && GoodWrite(WithWrite(s, w), s.nextWrite, w)
    ensures Inv(WithWrite(s, w))
  {
    AddedWriteIsTame(s, w);
    SameAgentsKeep(s, WithWrite(s, w));
    TameKeeps(s, WithWrite(s, w));
  }

  lemma AddedWriteIsTame(s: State, w: Write)
    requires GoodWrites(s) && GoodWrite(WithWrite(s, w), s.nextWrite, w)
    ensures Tame(s, WithWrite(s, w))
  {
    WritesAreNumbered(s);
    WithWriteIsQuiet(s, w);
  }

  lemma WithWriteIsQuiet(s: State, w: Write)
    requires forall n :: n in s.inflight ==> n < s.nextWrite
    ensures Quiet(s, WithWrite(s, w))
  {}

  /** Parent links of held operations stay within one owner. */
  lemma {:induction false} OwnerPathStaysHome(s: State, ownerId: Id, path: seq<Id>, i: nat)
    requires GoodAgents(s) && OwnerPath(OwnersOf(s, ownerId), path) && i < |path|
    requires path[0] in s.agents && s.agents[path[0]].base.ownerId == ownerId
    ensures path[i] in s.agents && s.agents[path[i]].base.ownerId == ownerId
  {
    if i > 0 {
      OwnerPathStaysHome(s, ownerId, path, i - 1);
      var x := path[i - 1];
      assert OwnerLinkAt(OwnersOf(s, ownerId), path, i - 1);
      assert GoodAgent(s, x);
    }
  }

  lemma RowIdentity(s: State, r: Record)
    requires GoodHistory(s) && GoodRecords(s) && r in s.records
    ensures r.operationId in s.agents && Good(s.agents[r.operationId], s.gone, r)
  {
    var k :| 0 <= k < |s.records| && s.records[k] == r;
    assert Chain(s.agents[r.operationId], s.gone, s.hist[r.operationId]);
  }

  lemma AncestorsShareOwner(s: State, id: Id, other: Record)
    requires GoodAgents(s) && GoodHistory(s) && GoodRecords(s)
    requires id in s.agents && other in s.records && s.agents[id].base.parent.Some?
    requires IsAncestor(OwnersOf(s, s.agents[id].base.ownerId), other.operationId, s.agents[id].base.parent.value)
    ensures other.ownerId == s.agents[id].base.ownerId
  {
    var owner := s.agents[id].base.ownerId;
    var path :| OwnerPath(OwnersOf(s, owner), path) && path[0] == s.agents[id].base.parent.value && path[|path| - 1] == other.operationId;
    ParentIsHome(s, id);
    OwnerPathStaysHome(s, owner, path, |path| - 1);
    RowIdentity(s, other);
  }

  lemma ParentIsHome(s: State, id: Id)
    requires GoodAgents(s) && id in s.agents && s.agents[id].base.parent.Some?
    ensures s.agents[id].base.parent.value in s.agents
    ensures s.agents[s.agents[id].base.parent.value].base.ownerId == s.agents[id].base.ownerId
  {
    assert GoodAgent(s, id);
  }

  /** One row that begin's conflict test let pass. */
  lemma RowAdmitted(owners: Owners, base: Record, other: Record)
    requires BeginConflict(owners, base, other) == Some(false)
    requires !IsTerminal(other) && AdmissionScopeConflicts(other, base.scope) == Some(true)
    requires other.operationId != base.operationId
    requires base.parent.Some? && IsAncestor(owners, other.operationId, base.parent.value) ==> other.ownerId == base.ownerId
    ensures other.resource != Unknown && other.resource != StopRequested
    ensures other.ownerId != base.ownerId ==> other.resource == BackgroundOwned
  {}

  lemma AdmissionChecked(s: State, id: Id)
    requires GoodAgents(s) && GoodHistory(s) && GoodRecords(s) && id in s.agents && id !in Ids(s.records)
    requires ReserveResult(s, id).Changed?
    ensures AdmittedAgainst(s.records, s.agents[id].base)
  {
    var base := s.agents[id].base;
    var owners := OwnersOf(s, base.ownerId);
    assert GoodAgent(s, id);
    ReserveAppends(s.records, base, other => BeginConflict(owners, base, other));
    forall i | 0 <= i < |s.records| && !IsTerminal(s.records[i]) && AdmissionScopeConflicts(s.records[i], base.scope) == Some(true)
      ensures s.records[i].resource != Unknown && s.records[i].resource != StopRequested
      ensures s.records[i].ownerId != base.ownerId ==> s.records[i].resource == BackgroundOwned
    {
      RowChecked(s, id, s.records[i]);
    }
  }

  lemma RowChecked(s: State, id: Id, other: Record)
    requires GoodAgents(s) && GoodHistory(s) && GoodRecords(s) && id in s.agents && id !in Ids(s.records) && other in s.records
    requires BeginConflict(OwnersOf(s, s.agents[id].base.ownerId), s.agents[id].base, other) == Some(false)
    requires !IsTerminal(other) && AdmissionScopeConflicts(other, s.agents[id].base.scope) == Some(true)
    ensures other.resource != Unknown && other.resource != StopRequested
    ensures other.ownerId != s.agents[id].base.ownerId ==> other.resource == BackgroundOwned
  {
    var base := s.agents[id].base;
    var owners := OwnersOf(s, base.ownerId);
    assert GoodAgent(s, id);
    if base.parent.Some? && IsAncestor(owners, other.operationId, base.parent.value) {
      AncestorsShareOwner(s, id, other);
    }
    RowAdmitted(owners, base, other);
  }

  lemma UnreservedIsAbsent(s: State, id: Id)
    requires GoodHistory(s) && GoodRecords(s) && id in s.agents
    requires s.agents[id].reserveWrite.None? || s.agents[id].reserveWrite.value !in s.committed
    ensures id !in s.hist && id !in Ids(s.records)
  {}

  predicate NoReservationFor(s: State, id: Id) {
    forall n :: n in s.inflight && s.inflight[n].expected.None? ==> s.inflight[n].subject.operationId != id
  }

  lemma SetReserveWriteInv(s: State, id: Id, rw: Option<nat>)
    requires Inv(s) && id in s.agents && id !in s.hist && NoReservationFor(s, id)
    ensures Inv(WithAgent(s, id, s.agents[id].(reserveWrite := rw)))
  {
    var s' := WithAgent(s, id, s.agents[id].(reserveWrite := rw));
    SetReserveAgents(s, id, rw);
    SetReserveWrites(s, id, rw);
    SetReserveHistory(s, id, rw);
    QuietDocuments(s, s');
    JournalKeeps(s, s');
  }

  lemma SetReserveIsQuiet(s: State, id: Id, rw: Option<nat>)
    requires GoodWrites(s) && id in s.agents
    ensures Quiet(s, WithAgent(s, id, s.agents[id].(reserveWrite := rw)))
  {
    WritesAreNumbered(s);
  }

  lemma SetReserveAgents(s: State, id: Id, rw: Option<nat>)
    requires GoodAgents(s) && GoodWrites(s) && id in s.agents
    ensures GoodAgents(WithAgent(s, id, s.agents[id].(reserveWrite := rw)))
    ensures Quiet(s, WithAgent(s, id, s.agents[id].(reserveWrite := rw)))
  {
    var s' := WithAgent(s, id, s.agents[id].(reserveWrite := rw));
    SetReserveIsQuiet(s, id, rw);
    forall x | x in s'.agents ensures GoodAgent(s', x) { QuietAgent(s, s', x); }
  }

  lemma SetReserveWrites(s: State, id: Id, rw: Option<nat>)
    requires GoodWrites(s) && id in s.agents && NoReservationFor(s, id)
    ensures GoodWrites(WithAgent(s, id, s.agents[id].(reserveWrite := rw)))
  {
    var s' := WithAgent(s, id, s.agents[id].(reserveWrite := rw));
    SetReserveIsQuiet(s, id, rw);
    WritesAreNumbered(s);
    WriteSubjectsExist(s, s');
    QuietWrites(s, s');
  }

  lemma SetReserveHistory(s: State, id: Id, rw: Option<nat>)
    requires GoodWrites(s) && GoodHistory(s) && id in s.agents && id !in s.hist
    ensures GoodHistory(WithAgent(s, id, s.agents[id].(reserveWrite := rw)))
  {
    SetReserveIsQuiet(s, id, rw);
    QuietHistory(s, WithAgent(s, id, s.agents[id].(reserveWrite := rw)));
  }

  lemma ReservationsAreCurrent(s: State, id: Id)
    requires GoodWrites(s) && id in s.agents && s.agents[id].reserveWrite.None?
    ensures NoReservationFor(s, id)
  {
    forall n | n in s.inflight && s.inflight[n].expected.None? ensures s.inflight[n].subject.operationId != id {
      assert GoodWrite(s, n, s.inflight[n]);
    }
  }

  lemma ReservationIsGood(s: State, id: Id)
    requires GoodAgents(s) && GoodHistory(s) && GoodRecords(s) && id in s.agents && id !in Ids(s.records)
    requires ReserveResult(s, id).Changed? && ValidRecords(ReserveResult(s, id).records)
    requires forall n :: n in s.committed ==> n < s.nextWrite
    ensures var r := ReserveResult(s, id);
            var s1 := WithAgent(s, id, s.agents[id].(reserveWrite := Some(s.nextWrite)));
            var w := Write(s.version, s.records, r.records, r.result, None);
            GoodWrite(WithWrite(s1, w), s.nextWrite, w)
  {
    var r := ReserveResult(s, id);
    var s1 := WithAgent(s, id, s.agents[id].(reserveWrite := Some(s.nextWrite)));
    var w := Write(s.version, s.records, r.records, r.result, None);
    assert GoodAgent(s, id);
    AdmissionChecked(s, id);
    ReservedChange(s, id);
    ReservationFits(WithWrite(s1, w), s.nextWrite, w);
  }

  lemma ReservedChange(s: State, id: Id)
    requires id in s.agents && s.agents[id].base.operationId == id && id !in Ids(s.records) && ReserveResult(s, id).Changed?
    ensures ReserveResult(s, id) == Changed(Compacted(s.records) + [s.agents[id].base], s.agents[id].base)
  {
    var base := s.agents[id].base;
    var owners := OwnersOf(s, base.ownerId);
    ReserveAppends(s.records, base, other => BeginConflict(owners, base, other));
  }

  lemma ReservationFits(s: State, n: nat, w: Write)
    requires w.subject.operationId in s.agents && GoodReservation(s, n, w) && w.expected.None?
    requires n < s.nextWrite && n !in s.committed && w.base == s.version && w.snapshot == s.records && UniqueIds(w.next)
    requires Good(s.agents[w.subject.operationId], s.gone, w.subject)
    ensures GoodWrite(s, n, w)
  {}

  lemma SendReserveInv(s: State, id: Id)
    requires Inv(s) && id in s.agents && s.agents[id].job == ReserveJob && s.agents[id].reserveWrite.None?
    ensures Inv(AfterSendReserve(s, id))
  {
    var r := ReserveResult(s, id);
    if r.Changed? && ValidRecords(r.records) {
      UnreservedIsAbsent(s, id);
      ReservationIsGood(s, id);
      ReservationsAreCurrent(s, id);
      SetReserveWriteInv(s, id, Some(s.nextWrite));
      AddWriteInv(WithAgent(s, id, s.agents[id].(reserveWrite := Some(s.nextWrite))), Write(s.version, s.records, r.records, r.result, None));
    } else {
      RefusedReserveInv(s, id, r.Blocked?);
    }
  }

  lemma RefusedReserveInv(s: State, id: Id, blocked: bool)
    requires Inv(s) && id in s.agents && s.agents[id].job == ReserveJob
    ensures Inv(WithAgent(s, id, RefusedReserve(s.agents[id], blocked)))
  {
    AgentIsSound(s, id);
    RefusedReserveSound(s.agents[id], s.gone, blocked);
    RefusedKnows(s.agents[id], blocked);
    AgentReplaced(s, id, RefusedReserve(s.agents[id], blocked));
  }

  lemma AgentIsSound(s: State, id: Id)
    requires GoodAgents(s) && id in s.agents
    ensures Sound(s.agents[id], s.gone) && AckKnown(s.agents[id], Versions(s, id)) && JobWriteKnown(s, s.agents[id].job, Versions(s, id))
    ensures s.agents[id].base.operationId == id
  {
    assert GoodAgent(s, id);
  }

  lemma RefusedKnows(a: Agent, blocked: bool)
    ensures RefusedReserve(a, blocked).op.acknowledged == a.op.acknowledged && RefusedReserve(a, blocked).base == a.base
    ensures RefusedReserve(a, blocked).job == NoJob
  {}

  /** The row an update replaces is the version the writer saw. */
  lemma RowSeen(s: State, seen: Record, next: Record)
    requires GoodHistory(s) && GoodRecords(s) && next.operationId in s.agents && Successor(seen, next)
    requires seen == s.agents[next.operationId].base || (seen.revision < |Versions(s, next.operationId)| && Versions(s, next.operationId)[seen.revision] == seen)
    requires UpdateResult(s, next).Changed?
    ensures next.operationId in s.hist && seen.revision < |s.hist[next.operationId]| && s.hist[next.operationId][seen.revision] == seen
    ensures s.records[IndexOf(s.records, next.operationId)] == seen
  {
    assert Chain(s.agents[next.operationId], s.gone, s.hist[next.operationId]);
  }

  lemma UpdateIsJustified(s: State, seen: Record, next: Record)
    requires GoodHistory(s) && GoodRecords(s) && next.operationId in s.agents && Successor(seen, next)
    requires seen == s.agents[next.operationId].base || (seen.revision < |Versions(s, next.operationId)| && Versions(s, next.operationId)[seen.revision] == seen)
    requires Good(s.agents[next.operationId], s.gone, next)
    requires UpdateResult(s, next).Changed? && ValidRecords(UpdateResult(s, next).records)
    requires forall n :: n in s.committed ==> n < s.nextWrite
    ensures GoodWrite(WithWrite(s, UpdateWrite(s, next)), s.nextWrite, UpdateWrite(s, next))
  {
    RowSeen(s, seen, next);
    UpdateShape(s, seen, next);
  }

  lemma UpdateShape(s: State, seen: Record, next: Record)
    requires next.operationId in s.agents && Successor(seen, next) && Good(s.agents[next.operationId], s.gone, next)
    requires next.operationId in s.hist && seen.revision < |s.hist[next.operationId]| && s.hist[next.operationId][seen.revision] == seen
    requires UpdateResult(s, next).Changed? && UniqueIds(UpdateResult(s, next).records)
    requires s.records[IndexOf(s.records, next.operationId)] == seen
    requires forall n :: n in s.committed ==> n < s.nextWrite
    ensures GoodWrite(WithWrite(s, UpdateWrite(s, next)), s.nextWrite, UpdateWrite(s, next))
  {
    var w := UpdateWrite(s, next);
    assert GoodUpdate(WithWrite(s, w), w, next.revision - 1);
  }

  lemma SendUpdateInv(s: State, id: Id)
    requires Inv(s) && id in s.agents && s.agents[id].job.UpdateJob? && s.agents[id].job.write.None?
    ensures Inv(AfterSendUpdate(s, id))
  {
    var r := UpdateResult(s, s.agents[id].job.next);
    if r.Changed? && ValidRecords(r.records) {
      SentUpdateInv(s, id);
    } else {
      BrokenInv(s, id);
    }
  }

  lemma SentUpdateInv(s: State, id: Id)
    requires Inv(s) && id in s.agents && s.agents[id].job.UpdateJob?
    requires UpdateResult(s, s.agents[id].job.next).Changed? && ValidRecords(UpdateResult(s, s.agents[id].job.next).records)
    ensures Inv(WithAgent(WithWrite(s, UpdateWrite(s, s.agents[id].job.next)), id,
                          s.agents[id].(job := s.agents[id].job.(write := Some(s.nextWrite)))))
  {
    var next := s.agents[id].job.next;
    AgentIsSound(s, id);
    UpdateIsJustified(s, s.agents[id].op.acknowledged, next);
    AddWriteInv(s, UpdateWrite(s, next));
    SendingInv(WithWrite(s, UpdateWrite(s, next)), id, s.nextWrite);
  }

  lemma BrokenInv(s: State, id: Id)
    requires Inv(s) && id in s.agents && s.agents[id].job.UpdateJob?
    ensures Inv(WithAgent(s, id, Broken(s.agents[id], s.agents[id].job.request.tag)))
  {
    var a := s.agents[id];
    AgentIsSound(s, id);
    BrokenSound(a, s.gone);
    BrokenKnows(a);
    AgentReplaced(s, id, Broken(a, a.job.request.tag));
  }

  lemma BrokenKnows(a: Agent)
    requires a.job.UpdateJob?
    ensures var b := Broken(a, a.job.request.tag); b.op.acknowledged == a.op.acknowledged && b.base == a.base && b.job == NoJob
  {}

  lemma SendingInv(s: State, id: Id, n: nat)
    requires Inv(s) && id in s.agents && s.agents[id].job.UpdateJob?
    requires n in s.inflight && s.inflight[n].subject == s.agents[id].job.next
    ensures Inv(WithAgent(s, id, s.agents[id].(job := s.agents[id].job.(write := Some(n)))))
  {
    var a := s.agents[id];
    assert GoodAgent(s, id);
    assert GoodWrite(s, n, s.inflight[n]);
    SendingSound(a, s.gone, Some(n));
    AgentReplaced(s, id, a.(job := a.job.(write := Some(n))));
  }

  lemma SendingSound(a: Agent, gone: set<Id>, write: Option<nat>)
    requires Sound(a, gone) && a.job.UpdateJob?
    ensures KeepsSound(a, gone, a.(job := a.job.(write := write)))
  {}

  /** A reconciler's evidence seals the attempt before it writes a terminal row. */
  lemma SettleNextGood(s: State, id: Id, read: nat, evidence: Evidence)
    requires GoodAgents(s) && GoodHistory(s) && GoodDocuments(s) && id in s.hist && read < |s.hist[id]|
    requires SettleNext(s, s.hist[id][read], evidence).Some?
    ensures var next := SettleNext(s, s.hist[id][read], evidence).value;
            next.operationId == id && id in s.agents && Good(s.agents[id], s.gone, next) && Successor(s.hist[id][read], next)
  {
    var r := s.hist[id][read];
    var next := SettleNext(s, r, evidence).value;
    assert Chain(s.agents[id], s.gone, s.hist[id]);
    assert GoodAgent(s, id);
    if IsTerminal(next) && evidence.ByReceipt? {
      ReceiptSeals(s, id, evidence.document, next.resource);
    }
  }

  lemma SettleInv(s: State, id: Id, read: nat, evidence: Evidence)
    requires Inv(s) && SettleEnabled(s, id, read, evidence)
    ensures Inv(WithWrite(s, UpdateWrite(s, SettleNext(s, s.hist[id][read], evidence).value)))
  {
    var next := SettleNext(s, s.hist[id][read], evidence).value;
    SettleNextGood(s, id, read, evidence);
    HistoryRevision(s, id, read);
    UpdateIsJustified(s, s.hist[id][read], next);
    AddWriteInv(s, UpdateWrite(s, next));
  }

  lemma HistoryRevision(s: State, id: Id, k: nat)
    requires GoodHistory(s) && id in s.hist && k < |s.hist[id]|
    ensures s.hist[id][k].revision == k && Versions(s, id)[k] == s.hist[id][k]
  {
    assert Chain(s.agents[id], s.gone, s.hist[id]);
  }

  lemma DropWriteInv(s: State, n: nat)
    requires Inv(s)
    ensures Inv(s.(inflight := s.inflight - {n}))
  {
    var s' := s.(inflight := s.inflight - {n});
    DropIsTame(s, n);
    SameAgentsKeep(s, s');
    TameKeeps(s, s');
  }

  lemma DropIsTame(s: State, n: nat)
    requires GoodWrites(s)
    ensures Tame(s, s.(inflight := s.inflight - {n}))
  {
    WritesAreNumbered(s);
  }

  lemma RetryInv(s: State, id: Id)
    requires Inv(s) && id in s.agents && CurrentWrite(s.agents[id]).Some? && CurrentWrite(s.agents[id]).value in s.inflight
    ensures Inv(AfterRetry(s, id))
  {
    var a := s.agents[id];
    var n := CurrentWrite(a).value;
    var s1 := s.(inflight := s.inflight - {n});
    DropWriteInv(s, n);
    if a.job == ReserveJob {
      RetriedReservation(s, id, n);
      SetReserveWriteInv(s1, id, None);
    } else {
      RetriedUpdate(s1, id);
    }
  }

  lemma RetriedReservation(s: State, id: Id, n: nat)
    requires GoodHistory(s) && GoodRecords(s) && GoodWrites(s) && id in s.agents && s.agents[id].reserveWrite == Some(n) && n in s.inflight
    ensures id !in s.hist && NoReservationFor(s.(inflight := s.inflight - {n}), id)
  {
    assert GoodWrite(s, n, s.inflight[n]);
    UnreservedIsAbsent(s, id);
    var s1 := s.(inflight := s.inflight - {n});
    forall m | m in s1.inflight && s1.inflight[m].expected.None? ensures s1.inflight[m].subject.operationId != id {
      assert GoodWrite(s, m, s.inflight[m]);
    }
  }

  lemma RetriedUpdate(s: State, id: Id)
    requires Inv(s) && id in s.agents && s.agents[id].job.UpdateJob?
    ensures Inv(WithAgent(s, id, s.agents[id].(job := s.agents[id].job.(write := None))))
  {
    var a := s.agents[id];
    assert GoodAgent(s, id);
    SendingSound(a, s.gone, None);
    AgentReplaced(s, id, a.(job := a.job.(write := None)));
  }

  // ---------------------------------------------------------------- a commit

  /** The version a committed write extends: nothing for a reservation, the current row for an update. */
  lemma CommitExtends(s: State, n: nat)
    requires GoodHistory(s) && GoodRecords(s) && n in s.inflight && GoodWrite(s, n, s.inflight[n]) && s.inflight[n].base == s.version
    ensures var w := s.inflight[n];
            var id := w.subject.operationId;
            && Versions(AfterCommit(s, n), id) == Versions(s, id) + [w.subject]
            && |Versions(s, id)| == w.subject.revision
            && (w.expected.None? <==> id !in s.hist)
            && (w.expected.Some? ==> RecordStep(s.hist[id][w.subject.revision - 1], w.subject)
                                     && s.records[IndexOf(s.records, id)] == s.hist[id][w.subject.revision - 1])
  {
    var w := s.inflight[n];
    var id := w.subject.operationId;
    match w.expected {
      case None => UnreservedIsAbsent(s, id);
      case Some(expected) => assert Chain(s.agents[id], s.gone, s.hist[id]);
    }
  }

  lemma CommitRows(s: State, n: nat, r: Record)
    requires UniqueIds(s.records) && n in s.inflight && GoodWrite(s, n, s.inflight[n]) && s.inflight[n].base == s.version
    requires r in s.inflight[n].next && r != s.inflight[n].subject
    ensures r in s.records && r.operationId != s.inflight[n].subject.operationId
  {
    var w := s.inflight[n];
    match w.expected {
      case None => CompactedMembers(s.records, r);
      case Some(_) =>
        var k := IndexOf(s.records, w.subject.operationId);
        var i :| 0 <= i < |w.next| && w.next[i] == r;
        assert s.records[i] == r;
    }
  }

  lemma CommitChain(s: State, n: nat, x: Id)
    requires GoodHistory(s) && GoodRecords(s)
    requires n in s.inflight && GoodWrite(s, n, s.inflight[n]) && s.inflight[n].base == s.version
    requires x in AfterCommit(s, n).hist
    ensures x in s.agents && Chain(s.agents[x], s.gone, AfterCommit(s, n).hist[x])
  {
    var w := s.inflight[n];
    if x in s.hist { assert Chain(s.agents[x], s.gone, s.hist[x]); }
    if x == w.subject.operationId {
      CommitExtends(s, n);
      ChainExtends(s.agents[x], s.gone, Versions(s, x), w.subject);
    }
  }

  lemma CommitHistory(s: State, n: nat)
    requires GoodHistory(s) && GoodRecords(s) && BornKnown(s)
    requires n in s.inflight && GoodWrite(s, n, s.inflight[n]) && s.inflight[n].base == s.version
    ensures GoodHistory(AfterCommit(s, n)) && BornKnown(AfterCommit(s, n))
  {
    forall x | x in AfterCommit(s, n).hist ensures x in s.agents && Chain(s.agents[x], s.gone, AfterCommit(s, n).hist[x]) {
      CommitChain(s, n, x);
    }
    CommitBirth(s, n);
  }

  /** A record gets its birth with its first version, whose write the agent remembers. */
  lemma CommitBirth(s: State, n: nat)
    requires GoodHistory(s) && GoodRecords(s) && BornKnown(s)
    requires n in s.inflight && GoodWrite(s, n, s.inflight[n]) && s.inflight[n].base == s.version
    ensures var s' := AfterCommit(s, n);
            && BornKnown(s')
            && forall x :: x in s'.hist ==>
                 && x in s.agents && s.agents[x].reserveWrite.Some? && s.agents[x].reserveWrite.value in s'.committed
                 && x in s'.born && s'.born[x] < s'.version
  {
    CommitExtends(s, n);
  }

  lemma ChainExtends(a: Agent, gone: set<Id>, versions: seq<Record>, next: Record)
    requires |versions| == next.revision && Good(a, gone, next)
    requires versions == [] ==> next == a.base
    requires versions != [] ==> Chain(a, gone, versions) && RecordStep(versions[|versions| - 1], next)
    ensures Chain(a, gone, versions + [next])
  {
    var extended := versions + [next];
    forall k | 0 < k < |extended| ensures StepAt(extended, k) {
      if k < |versions| { assert StepAt(versions, k); }
    }
  }

  lemma CommitSubjectRow(s: State, n: nat)
    requires GoodHistory(s) && GoodRecords(s)
    requires n in s.inflight && GoodWrite(s, n, s.inflight[n]) && s.inflight[n].base == s.version
    ensures RowIsLatest(AfterCommit(s, n), s.inflight[n].subject)
  {
    CommitExtends(s, n);
  }

  /** A row of another record is untouched by a commit, and so is its history. */
  lemma OtherRowStays(s: State, n: nat, r: Record)
    requires n in s.inflight && RowIsLatest(s, r) && r.operationId != s.inflight[n].subject.operationId
    ensures RowIsLatest(AfterCommit(s, n), r)
  {}

  lemma CommitRow(s: State, n: nat, r: Record)
    requires GoodHistory(s) && GoodRecords(s)
    requires n in s.inflight && GoodWrite(s, n, s.inflight[n]) && s.inflight[n].base == s.version && r in s.inflight[n].next
    ensures RowIsLatest(AfterCommit(s, n), r)
  {
    if r == s.inflight[n].subject {
      CommitSubjectRow(s, n);
    } else {
      CommitRows(s, n, r);
      var k :| 0 <= k < |s.records| && s.records[k] == r;
      OtherRowStays(s, n, s.records[k]);
    }
  }

  lemma CommitRecords(s: State, n: nat)
    requires GoodHistory(s) && GoodRecords(s)
    requires n in s.inflight && GoodWrite(s, n, s.inflight[n]) && s.inflight[n].base == s.version
    ensures GoodRecords(AfterCommit(s, n))
  {
    var s' := AfterCommit(s, n);
    forall i | 0 <= i < |s'.records| ensures RowIsLatest(s', s'.records[i]) { CommitRow(s, n, s'.records[i]); }
  }

  lemma CommitWrite(s: State, n: nat, m: nat)
    requires GoodHistory(s) && GoodRecords(s)
    requires n in s.inflight && GoodWrite(s, n, s.inflight[n]) && s.inflight[n].base == s.version
    requires m in s.inflight && m != n && GoodWrite(s, m, s.inflight[m])
    ensures GoodWrite(AfterCommit(s, n), m, s.inflight[m])
  {
    var s' := AfterCommit(s, n);
    var w := s.inflight[m];
    CommitExtends(s, n);
    match w.expected {
      case None => assert GoodReservation(s', m, w);
      case Some(expected) =>
        assert s'.hist[w.subject.operationId][expected] == s.hist[w.subject.operationId][expected];
        assert GoodUpdate(s', w, expected);
    }
  }

  lemma CommitWrites(s: State, n: nat)
    requires GoodHistory(s) && GoodRecords(s) && GoodWrites(s) && n in s.inflight && s.inflight[n].base == s.version
    ensures GoodWrites(AfterCommit(s, n))
  {
    var s' := AfterCommit(s, n);
    assert GoodWrite(s, n, s.inflight[n]);
    forall m | m in s'.inflight ensures GoodWrite(s', m, s'.inflight[m]) {
      assert GoodWrite(s, m, s.inflight[m]);
      CommitWrite(s, n, m);
    }
  }

  lemma AckStaysKnown(a: Agent, versions: seq<Record>, versions': seq<Record>)
    requires AckKnown(a, versions) && versions <= versions'
    ensures AckKnown(a, versions')
  {}

  lemma CommitAgent(s: State, n: nat, x: Id)
    requires GoodHistory(s) && GoodRecords(s) && x in s.agents && GoodAgent(s, x)
    requires n in s.inflight && GoodWrite(s, n, s.inflight[n]) && s.inflight[n].base == s.version
    ensures GoodAgent(AfterCommit(s, n), x)
  {
    var s' := AfterCommit(s, n);
    CommitExtends(s, n);
    assert Versions(s, x) <= Versions(s', x);
    AckStaysKnown(s.agents[x], Versions(s, x), Versions(s', x));
    CommitJob(s, n, x);
  }

  lemma CommitJob(s: State, n: nat, x: Id)
    requires x in s.agents && GoodAgent(s, x) && n in s.inflight
    requires Versions(s, x) <= Versions(AfterCommit(s, n), x)
    requires |Versions(s, s.inflight[n].subject.operationId)| == s.inflight[n].subject.revision
    requires Versions(AfterCommit(s, n), s.inflight[n].subject.operationId)
             == Versions(s, s.inflight[n].subject.operationId) + [s.inflight[n].subject]
    ensures JobWriteKnown(AfterCommit(s, n), s.agents[x].job, Versions(AfterCommit(s, n), x))
  {
    var a := s.agents[x];
    if a.job.UpdateJob? && a.job.write == Some(n) {
      assert a.job.next == s.inflight[n].subject;
      assert a.job.next.operationId == x;
    }
  }

  lemma CommitAgents(s: State, n: nat)
    requires GoodAgents(s) && GoodHistory(s) && GoodRecords(s)
    requires n in s.inflight && GoodWrite(s, n, s.inflight[n]) && s.inflight[n].base == s.version
    ensures GoodAgents(AfterCommit(s, n))
  {
    forall x | x in s.agents ensures GoodAgent(AfterCommit(s, n), x) { CommitAgent(s, n, x); }
  }

  /** Two rows that were in the journal before, one of them perhaps updated. */
  lemma CommitOldPair(s: State, n: nat, earlier: Record, later: Record)
    requires GoodHistory(s) && GoodRecords(s) && Exclusive(s)
    requires n in s.inflight && GoodWrite(s, n, s.inflight[n]) && s.inflight[n].base == s.version
    requires earlier in s.inflight[n].next && later in s.inflight[n].next
    requires PreviousRow(s, n, earlier).Some? && PreviousRow(s, n, later).Some?
    ensures ExclusivePair(AfterCommit(s, n), earlier, later)
  {
    CommitRowStep(s, n, earlier);
    CommitRowStep(s, n, later);
    RowsExclusive(s, PreviousRow(s, n, earlier).value, PreviousRow(s, n, later).value);
  }

  lemma RowsExclusive(s: State, earlier: Record, later: Record)
    requires Exclusive(s) && earlier in s.records && later in s.records
    ensures ExclusivePair(s, earlier, later)
  {
    var i :| 0 <= i < |s.records| && s.records[i] == earlier;
    var j :| 0 <= j < |s.records| && s.records[j] == later;
    assert ExclusivePair(s, s.records[i], s.records[j]);
  }

  /** An old row and the one just reserved: begin's admission test speaks. */
  lemma CommitNewPair(s: State, n: nat, earlier: Record)
    requires GoodHistory(s) && GoodRecords(s)
    requires n in s.inflight && GoodWrite(s, n, s.inflight[n]) && s.inflight[n].base == s.version && s.inflight[n].expected.None?
    requires earlier in s.inflight[n].next && earlier != s.inflight[n].subject
    ensures ExclusivePair(AfterCommit(s, n), earlier, s.inflight[n].subject)
  {
    CommitRows(s, n, earlier);
    var i :| 0 <= i < |s.records| && s.records[i] == earlier;
    assert AdmittedAgainst(s.records, s.inflight[n].subject);
    assert RowIsLatest(s, s.records[i]);
  }

  lemma CommitPair(s: State, n: nat, earlier: Record, later: Record)
    requires GoodHistory(s) && GoodRecords(s) && BornKnown(s) && Exclusive(s)
    requires n in s.inflight && GoodWrite(s, n, s.inflight[n]) && s.inflight[n].base == s.version
    requires earlier in s.inflight[n].next && later in s.inflight[n].next
    ensures ExclusivePair(AfterCommit(s, n), earlier, later)
  {
    if PreviousRow(s, n, earlier).None? {
      CommitRowStep(s, n, earlier);
      CommitNewest(s, n, later);
    } else if PreviousRow(s, n, later).None? {
      CommitRowStep(s, n, later);
      CommitNewPair(s, n, earlier);
    } else {
      CommitOldPair(s, n, earlier, later);
    }
  }

  /** The row a row came from; None for a row just reserved. */
  function PreviousRow(s: State, n: nat, r: Record): Option<Record>
    requires n in s.inflight
  {
    var w := s.inflight[n];
    if r != w.subject then Some(r)
    else if w.expected.None? then None
    else if IndexOf(s.records, r.operationId) < |s.records| then Some(s.records[IndexOf(s.records, r.operationId)]) else None
  }

  lemma CommitRowStep(s: State, n: nat, r: Record)
    requires GoodHistory(s) && GoodRecords(s)
    requires n in s.inflight && GoodWrite(s, n, s.inflight[n]) && s.inflight[n].base == s.version
    requires r in s.inflight[n].next
    ensures PreviousRow(s, n, r).None? ==> r == s.inflight[n].subject && s.inflight[n].expected.None?
    ensures PreviousRow(s, n, r).Some? ==>
              var p := PreviousRow(s, n, r).value;
              && p in s.records && SameIdentity(r, p) && (IsTerminal(p) ==> IsTerminal(r))
              && p.operationId in s.hist && p.operationId in s.born && AfterCommit(s, n).born[p.operationId] == s.born[p.operationId]
              && (p == r || s.inflight[n].expected.Some?)
  {
    if r == s.inflight[n].subject { CommitExtends(s, n); } else { CommitRows(s, n, r); }
  }

  /** Nothing is younger than a row just reserved. */
  lemma CommitNewest(s: State, n: nat, later: Record)
    requires GoodHistory(s) && GoodRecords(s) && BornKnown(s)
    requires n in s.inflight && GoodWrite(s, n, s.inflight[n]) && s.inflight[n].base == s.version && s.inflight[n].expected.None?
    requires later in s.inflight[n].next
    ensures var s' := AfterCommit(s, n);
            later.operationId in s'.born && s.inflight[n].subject.operationId in s'.born
            && s'.born[later.operationId] <= s'.born[s.inflight[n].subject.operationId]
  {
    CommitExtends(s, n);
    if later != s.inflight[n].subject { CommitRows(s, n, later); }
  }

  lemma CommitExclusive(s: State, n: nat)
    requires GoodHistory(s) && GoodRecords(s) && BornKnown(s) && Exclusive(s)
    requires n in s.inflight && GoodWrite(s, n, s.inflight[n]) && s.inflight[n].base == s.version
    ensures Exclusive(AfterCommit(s, n))
  {
    var s' := AfterCommit(s, n);
    forall i, j | 0 <= i < |s'.records| && 0 <= j < |s'.records| ensures ExclusivePair(s', s'.records[i], s'.records[j]) {
      CommitPair(s, n, s'.records[i], s'.records[j]);
    }
  }

  lemma CommitInv(s: State, n: nat)
    requires Inv(s) && n in s.inflight && s.inflight[n].base == s.version
    ensures Inv(AfterCommit(s, n))
  {
    assert GoodWrite(s, n, s.inflight[n]);
    CommitAgents(s, n);
    CommitHistory(s, n);
    CommitRecords(s, n);
    CommitWrites(s, n);
    CommitExclusive(s, n);
    CommitDocuments(s, n);
  }

  lemma CommitDocuments(s: State, n: nat)
    requires GoodDocuments(s) && n in s.inflight
    ensures GoodDocuments(AfterCommit(s, n))
  {
    forall d | d in s.documents ensures Truthful(AfterCommit(s, n), d) { assert Truthful(s, d); }
  }
}
