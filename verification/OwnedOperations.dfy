/** One operation's local state machine and the registry's admission tests (ownedOperations.ts, ownedPrepareAdmission.ts). */
module OwnedOperations {
  import opened Text
  import opened OwnershipState

  // ---------------------------------------------------------------- remote evidence

  datatype StopProof = NoProof | SubreaperNoChildren | BackgroundTasks | NeverLaunched

  /**
   * A receipt document. `signer` is the fence whose derived key signed it; HMAC checking is the
   * equality of that fence with the expected one. `background` says a valid background section is attached.
   */
  datatype Document = Document(
    signer: Fence, fence: Fence, resource: Resource, observedAt: int, proof: StopProof, background: bool)

  /** parseRemoteReceipt: the accepted resource, or None for anything that can only retain a blocker. */
  function ParseRemoteReceipt(d: Document, fence: Fence): Option<Resource> {
    if d.signer != fence || !ValidFence(fence) || d.fence != fence || d.observedAt <= 0 then None
    else if d.resource == Stopped && d.proof != SubreaperNoChildren then None
    else if d.resource == NotStarted && d.proof != NeverLaunched then None
    else if d.resource == BackgroundOwned && (d.proof != BackgroundTasks || !d.background) then None
    else if d.resource != BackgroundOwned && d.background then None
    else Some(d.resource)
  }

  datatype ProofKind =
    | NeverDispatched
    | CoordinatorSettled
    | RemoteReceipt(receipt: Option<Document>)
    | BackgroundInventory(inventory: Option<Document>)
    | SandboxAbsent(observedAt: Option<int>)

  datatype Proof = Proof(kind: ProofKind, attemptId: Id, sandboxUid: Option<Id>)

  // ---------------------------------------------------------------- the operation

  /** The mutable fields of OwnedOperation; `aborted` is its abort signal. */
  datatype Op = Op(
    record: Record, acknowledged: Record, uncertain: bool, callerOutcome: Outcome,
    dispatched: bool, durable: bool, aborted: bool)

  /** Absent fields keep their previous value. */
  datatype Patch = Patch(
    resource: Option<Resource>, sandboxUid: Option<Id>, remoteFence: Option<Fence>, dispatchedAt: Option<int>)

  const EMPTY_PATCH := Patch(None, None, None, None)

  function Create(record: Record): Op {
    Op(record, record, false, record.outcome, false, false, false)
  }

  function AcceptReservation(o: Op, reserved: Record): Op {
    o.(acknowledged := reserved, record := reserved, durable := true)
  }

  function MarkUncertain(o: Op): Op {
    if IsTerminal(o.record) && o.durable then o
    else o.(uncertain := true, durable := false, record := o.record.(resource := Unknown))
  }

  predicate CanProveNeverDispatched(o: Op) {
    !o.dispatched && o.record.remoteFence.None? && o.record.resource != Running && o.record.resource != BackgroundOwned
  }

  predicate BindAllowed(o: Op, f: Fence) {
    && ValidFence(f) && f.operationId == o.record.operationId && f.attemptId == o.record.attemptId
    && f.ownerId == o.record.ownerId && !o.dispatched && !o.uncertain
    && (o.record.remoteFence.Some? ==> o.record.remoteFence.value == f)
  }

  predicate DispatchAllowed(o: Op, sandboxUid: Id) {
    && !o.aborted && !o.uncertain
    && (o.record.remoteFence.Some? ==> o.record.remoteFence.value.sandboxUid == sandboxUid)
  }

  /** update refuses the proved resources and a second fence. */
  predicate UpdateAllowed(o: Op, patch: Patch) {
    && patch.resource !in {Some(Stopped), Some(NotStarted), Some(BackgroundOwned)}
    && (patch.remoteFence.Some? ==>
          !o.dispatched && (o.record.remoteFence.Some? ==> patch.remoteFence == o.record.remoteFence))
  }

  /** The checks of complete before anything is persisted. */
  predicate CompleteAllowed(o: Op, outcome: Outcome, proof: Proof, resource: Resource, unresolvedChildren: bool) {
    && outcome != Pending
    && resource in {Stopped, NotStarted, BackgroundOwned}
    && proof.attemptId == o.record.attemptId
    && (o.record.sandboxUid.Some? ==> proof.sandboxUid == o.record.sandboxUid)
    && KindProves(o, outcome, proof, resource, unresolvedChildren)
  }

  predicate KindProves(o: Op, outcome: Outcome, proof: Proof, resource: Resource, unresolvedChildren: bool) {
    match proof.kind
    case NeverDispatched => CanProveNeverDispatched(o) && resource == NotStarted
    case CoordinatorSettled =>
      !o.dispatched && !o.uncertain && o.record.remoteFence.None? && resource == Stopped && !unresolvedChildren
    case SandboxAbsent(observedAt) =>
      && o.record.sandboxUid.Some? && proof.sandboxUid == o.record.sandboxUid
      && observedAt.Some? && observedAt.value >= ObservationFloor(o.record)
      && o.record.resource in {Running, Unknown, StopRequested}
      && resource == Stopped && outcome in {Failed, Cancelled}
    case RemoteReceipt(d) => ReceiptProves(o, d, resource) && resource != BackgroundOwned
    case BackgroundInventory(d) => ReceiptProves(o, d, resource)
  }

  predicate ReceiptProves(o: Op, d: Option<Document>, resource: Resource) {
    && o.record.remoteFence.Some? && d.Some?
    && ParseRemoteReceipt(d.value, o.record.remoteFence.value) == Some(resource)
  }

  // What each terminal or background claim rests on, claim by claim.

  /** The document speaks of the fenced attempt and is signed with the key of that fence. */
  predicate SignedFor(f: Fence, d: Document, resource: Resource) {
    ValidFence(f) && d.signer == f && d.fence == f && d.observedAt > 0 && d.resource == resource
  }

  /** The proof carries a document about this very attempt, signed with the key of the fence the record holds. */
  predicate Signed(o: Op, d: Option<Document>, resource: Resource) {
    o.record.remoteFence.Some? && d.Some? && SignedFor(o.record.remoteFence.value, d.value, resource)
  }

  function Carried(kind: ProofKind): Option<Document> {
    match kind
    case RemoteReceipt(d) => d
    case BackgroundInventory(d) => d
    case _ => None
  }

  predicate ProvenNotStarted(o: Op, proof: Proof) {
    || (proof.kind.NeverDispatched? && !o.dispatched && o.record.remoteFence.None?
        && o.record.resource != Running && o.record.resource != BackgroundOwned)
    || (Signed(o, Carried(proof.kind), NotStarted)
        && Carried(proof.kind).value.proof == NeverLaunched && !Carried(proof.kind).value.background)
  }

  predicate ProvenStopped(o: Op, outcome: Outcome, proof: Proof, unresolvedChildren: bool) {
    || (proof.kind.CoordinatorSettled? && !o.dispatched && !o.uncertain && o.record.remoteFence.None? && !unresolvedChildren)
    || (proof.kind.SandboxAbsent? && o.record.sandboxUid.Some? && proof.kind.observedAt.Some?
        && proof.kind.observedAt.value >= (if o.record.dispatchedAt.Some? then o.record.dispatchedAt.value else o.record.updatedAt)
        && (o.record.resource == Running || o.record.resource == Unknown || o.record.resource == StopRequested)
        && (outcome == Failed || outcome == Cancelled))
    || (Signed(o, Carried(proof.kind), Stopped)
        && Carried(proof.kind).value.proof == SubreaperNoChildren && !Carried(proof.kind).value.background)
  }

  predicate ProvenBackground(o: Op, proof: Proof) {
    && proof.kind.BackgroundInventory? && Signed(o, proof.kind.inventory, BackgroundOwned)
    && proof.kind.inventory.value.proof == BackgroundTasks && proof.kind.inventory.value.background
  }

  predicate Proven(o: Op, outcome: Outcome, proof: Proof, resource: Resource, unresolvedChildren: bool) {
    && outcome != Pending
    && proof.attemptId == o.record.attemptId && (o.record.sandboxUid.Some? ==> proof.sandboxUid == o.record.sandboxUid)
    && match resource
       case NotStarted => ProvenNotStarted(o, proof)
       case Stopped => ProvenStopped(o, outcome, proof, unresolvedChildren)
       case BackgroundOwned => ProvenBackground(o, proof)
       case _ => false
  }

  /** complete accepts exactly the proven claims: no claim passes without its proof, and none with it is refused. */
  lemma CompletionDecides(o: Op, outcome: Outcome, proof: Proof, resource: Resource, unresolvedChildren: bool)
    ensures CompleteAllowed(o, outcome, proof, resource, unresolvedChildren) <==>
            Proven(o, outcome, proof, resource, unresolvedChildren)
  {
    match proof.kind {
      case RemoteReceipt(d) => ReceiptDecides(o, d, resource);
      case BackgroundInventory(d) => ReceiptDecides(o, d, resource);
      case _ =>
    }
  }

  /** The report and its proof fit together: children reaped, never launched, or a background inventory. */
  predicate Attests(d: Document) {
    && (d.resource == Stopped ==> d.proof == SubreaperNoChildren)
    && (d.resource == NotStarted ==> d.proof == NeverLaunched)
    && (d.resource == BackgroundOwned ==> d.proof == BackgroundTasks)
    && (d.resource == BackgroundOwned <==> d.background)
  }

  /** A receipt is read exactly when it is signed for the fence and attests what it reports. */
  lemma ReceiptReads(d: Document, fence: Fence)
    ensures ParseRemoteReceipt(d, fence).Some? <==> SignedFor(fence, d, d.resource) && Attests(d)
    ensures ParseRemoteReceipt(d, fence).Some? ==> ParseRemoteReceipt(d, fence) == Some(d.resource)
  {}

  lemma ReceiptDecides(o: Op, d: Option<Document>, resource: Resource)
    ensures ReceiptProves(o, d, resource) <==> Signed(o, d, resource) && Attests(d.value)
  {}

  // When binding, dispatching and updating go ahead.

  /** A fence binds exactly to the attempt it names, before dispatch, while nothing is in doubt, and never beside another fence. */
  lemma BindDecides(o: Op, f: Fence)
    ensures BindAllowed(o, f) <==>
            && ValidFence(f) && f == Fence(o.record.operationId, o.record.attemptId, o.record.ownerId, f.sandboxUid, f.podUid, f.startBefore)
            && !o.dispatched && !o.uncertain
            && (o.record.remoteFence == None || o.record.remoteFence == Some(f))
  {}

  /** Dispatch goes ahead exactly while neither cancelled nor in doubt, and only to the sandbox of the bound fence. */
  lemma DispatchDecides(o: Op, sandboxUid: Id)
    ensures DispatchAllowed(o, sandboxUid) <==>
            && !o.aborted && !o.uncertain
            && (o.record.remoteFence == None || o.record.remoteFence.value.sandboxUid == sandboxUid)
  {}

  /** Without a proof no update may claim an end or a handover, rebind a fence, or bind one after dispatch. */
  lemma UpdateDecides(o: Op, patch: Patch)
    ensures UpdateAllowed(o, patch) <==>
            && patch.resource != Some(Stopped) && patch.resource != Some(NotStarted) && patch.resource != Some(BackgroundOwned)
            && (patch.remoteFence == None
                || (!o.dispatched && (o.record.remoteFence == None || o.record.remoteFence == patch.remoteFence)))
  {}

  // What one persist writes.

  /** The version persist writes over the acknowledged one for this patch. */
  predicate Overwrites(o: Op, patch: Patch, proved: bool, now: int, next: Record) {
    && next.operationId == o.acknowledged.operationId && next.attemptId == o.acknowledged.attemptId
    && next.invocationId == o.acknowledged.invocationId && next.ownerId == o.acknowledged.ownerId
    && next.kind == o.acknowledged.kind && next.scope == o.acknowledged.scope && next.parent == o.acknowledged.parent
    && next.revision == o.acknowledged.revision + 1 && next.updatedAt == now
    && next.outcome == o.callerOutcome
    && (proved && patch.resource.Some? ==> next.resource == patch.resource.value)
    && (!proved && o.uncertain ==> next.resource == Unknown)
    && (!proved && !o.uncertain && patch.resource.Some? ==> next.resource == patch.resource.value)
    && (patch.resource.None? && (proved || !o.uncertain) ==> next.resource == o.record.resource)
    && (patch.sandboxUid.Some? ==> next.sandboxUid == patch.sandboxUid)
    && (patch.sandboxUid.None? ==> next.sandboxUid == o.acknowledged.sandboxUid)
    && (patch.remoteFence.Some? ==> next.remoteFence == patch.remoteFence)
    && (patch.remoteFence.None? ==> next.remoteFence == o.acknowledged.remoteFence)
    && (patch.dispatchedAt.Some? ==> next.dispatchedAt == patch.dispatchedAt)
    && (patch.dispatchedAt.None? ==> next.dispatchedAt == o.acknowledged.dispatchedAt)
  }

  /** Only an unproved patch over an acknowledged terminal writes nothing; everything else writes exactly this. */
  lemma PersistDecides(o: Op, patch: Patch, proved: bool, now: int)
    ensures PersistNext(o, patch, proved, now).None? <==>
              !proved && (o.acknowledged.resource == Stopped || o.acknowledged.resource == NotStarted)
    ensures forall next :: PersistNext(o, patch, proved, now) == Some(next) ==> Overwrites(o, patch, proved, now, next)
  {}

  /** A caller outcome is settled once. */
  function SettleOutcome(o: Op, outcome: Outcome): Op {
    if o.callerOutcome == Pending then o.(callerOutcome := outcome) else o
  }

  /** unknown before its persist: None when a durable terminal makes it a no-op. */
  function BeginUnknown(o: Op, timedOut: bool): Option<Op> {
    if IsTerminal(o.record) && o.durable then None
    else Some(SettleOutcome(MarkUncertain(o), if o.aborted then Cancelled else if timedOut then TimedOut else Failed))
  }

  /** requestCancel before its persist: None when nothing is requested of the journal. */
  function BeginCancel(o: Op): Option<Op> {
    if IsTerminal(o.record) || o.record.resource == BackgroundOwned || o.aborted then None
    else
      var aborted := o.(aborted := true);
      Some(if o.uncertain then aborted else aborted.(record := o.record.(resource := StopRequested)))
  }

  /** The record persist writes; None when an acknowledged terminal makes an unproved patch a silent no-op. */
  function PersistNext(o: Op, patch: Patch, proved: bool, now: int): Option<Record> {
    var previous := o.acknowledged;
    if IsTerminal(previous) && !proved then None
    else Some(previous.(
      resource := if o.uncertain && !proved then Unknown
                  else if patch.resource.Some? then patch.resource.value else o.record.resource,
      outcome := o.callerOutcome,
      revision := previous.revision + 1,
      updatedAt := now,
      sandboxUid := if patch.sandboxUid.Some? then patch.sandboxUid else previous.sandboxUid,
      remoteFence := if patch.remoteFence.Some? then patch.remoteFence else previous.remoteFence,
      dispatchedAt := if patch.dispatchedAt.Some? then patch.dispatchedAt else previous.dispatchedAt))
  }

  function PersistCommitted(o: Op, committed: Record, proved: bool, waitExpired: bool): Op {
    var uncertain := if proved && !waitExpired then false else o.uncertain;
    o.(acknowledged := committed,
       uncertain := uncertain,
       record := if uncertain then committed.(resource := Unknown) else committed,
       durable := !waitExpired && !uncertain)
  }

  /** settleBeginReservationFailure: a deterministic conflict that never reached the journal leaves no owner. */
  function SettleBeginFailure(o: Op, mayHaveCommitted: bool, blocked: bool): Op {
    if !mayHaveCommitted && !o.durable && CanProveNeverDispatched(o) && blocked
    then o.(record := o.record.(resource := NotStarted, outcome := Failed))
    else MarkUncertain(o)
  }

  /** The checks of complete that look at the kind of the proof, in the source's order. */
  method CheckKind(o: Op, outcome: Outcome, proof: Proof, resource: Resource, unresolvedChildren: bool) returns (ok: bool)
    ensures ok == KindProves(o, outcome, proof, resource, unresolvedChildren)
  {
    match proof.kind {
      case NeverDispatched =>
        ok := CanProveNeverDispatched(o) && resource == NotStarted;
      case CoordinatorSettled =>
        ok := !(o.dispatched || o.uncertain || o.record.remoteFence.Some? || resource != Stopped || unresolvedChildren);
      case SandboxAbsent(observedAt) =>
        ok := !(o.record.sandboxUid.None? || proof.sandboxUid != o.record.sandboxUid
                || observedAt.None? || observedAt.value < ObservationFloor(o.record)
                || o.record.resource !in {Running, Unknown, StopRequested}
                || resource != Stopped || (outcome != Failed && outcome != Cancelled));
      case RemoteReceipt(d) =>
        ok := CheckReceipt(o, d, resource);
        ok := ok && resource != BackgroundOwned;
      case BackgroundInventory(d) =>
        ok := CheckReceipt(o, d, resource);
    }
  }

  method CheckReceipt(o: Op, d: Option<Document>, resource: Resource) returns (ok: bool)
    ensures ok == ReceiptProves(o, d, resource)
  {
    if o.record.remoteFence.None? || d.None? { return false; }
    ok := ParseRemoteReceipt(d.value, o.record.remoteFence.value) == Some(resource);
  }

  /** The imperative form: every method's contract names the function above that it applies to the object's fields. */
  class OwnedOperation {
    var record: Record
    var acknowledged: Record
    var uncertain: bool
    var callerOutcome: Outcome
    var dispatched: bool
    var durable: bool
    var aborted: bool

    function View(): Op reads this {
      Op(record, acknowledged, uncertain, callerOutcome, dispatched, durable, aborted)
    }

    constructor (initial: Record)
      ensures View() == Create(initial)
    {
      record, acknowledged, callerOutcome := initial, initial, initial.outcome;
      uncertain, dispatched, durable, aborted := false, false, false, false;
    }

    method Accept(reserved: Record)
      modifies this
      ensures View() == AcceptReservation(old(View()), reserved)
      ensures record == reserved && acknowledged == reserved && durable
      ensures uncertain == old(uncertain) && callerOutcome == old(callerOutcome)
    {
      acknowledged := reserved;
      record := reserved;
      durable := true;
    }

    method Mark()
      modifies this
      ensures View() == MarkUncertain(old(View()))
      ensures (old(record.resource) == Stopped || old(record.resource) == NotStarted) && old(durable) ==>
                record == old(record) && durable && uncertain == old(uncertain)
      ensures !((old(record.resource) == Stopped || old(record.resource) == NotStarted) && old(durable)) ==>
                record == old(record).(resource := Unknown) && !durable && uncertain
      ensures callerOutcome == old(callerOutcome) && acknowledged == old(acknowledged)
    {
      if IsTerminal(record) && durable { return; }
      uncertain := true;
      durable := false;
      record := record.(resource := Unknown);
    }

    method Unresolved(timedOut: bool) returns (persists: bool)
      modifies this
      ensures persists == BeginUnknown(old(View()), timedOut).Some?
      ensures View() == if persists then BeginUnknown(old(View()), timedOut).value else old(View())
      ensures persists <==> !((old(record.resource) == Stopped || old(record.resource) == NotStarted) && old(durable))
      ensures persists ==> uncertain && !durable && record == old(record).(resource := Unknown)
      ensures persists && old(callerOutcome) == Pending ==>
                && (callerOutcome == Cancelled <==> old(aborted))
                && (callerOutcome == TimedOut <==> !old(aborted) && timedOut)
                && (callerOutcome == Failed <==> !old(aborted) && !timedOut)
      ensures old(callerOutcome) != Pending || !persists ==> callerOutcome == old(callerOutcome)
    {
      if IsTerminal(record) && durable { return false; }
      Mark();
      if callerOutcome == Pending {
        callerOutcome := if aborted then Cancelled else if timedOut then TimedOut else Failed;
      }
      persists := true;
    }

    method RequestCancel() returns (persists: bool)
      modifies this
      ensures persists == BeginCancel(old(View())).Some?
      ensures View() == if persists then BeginCancel(old(View())).value else old(View())
      ensures persists <==> !old(aborted) && old(record.resource) !in {Stopped, NotStarted, BackgroundOwned}
      ensures persists ==> aborted && record == old(record).(resource := if old(uncertain) then old(record.resource) else StopRequested)
      ensures callerOutcome == old(callerOutcome)
    {
      if IsTerminal(record) || record.resource == BackgroundOwned { return false; }
      if aborted { return false; }
      aborted := true;
      if !uncertain { record := record.(resource := StopRequested); }
      persists := true;
    }

    method Complete(outcome: Outcome, proof: Proof, resource: Resource, unresolvedChildren: bool) returns (ok: bool)
      requires outcome != Pending && resource in {Stopped, NotStarted, BackgroundOwned}
      modifies this
      ensures ok == CompleteAllowed(old(View()), outcome, proof, resource, unresolvedChildren)
      ensures ok <==> Proven(old(View()), outcome, proof, resource, unresolvedChildren)
      ensures View() == if ok then SettleOutcome(old(View()), outcome) else old(View())
      ensures ok && old(callerOutcome) == Pending ==> callerOutcome == outcome
      ensures !ok || old(callerOutcome) != Pending ==> callerOutcome == old(callerOutcome)
      ensures View() == old(View()).(callerOutcome := callerOutcome)
    {
      CompletionDecides(View(), outcome, proof, resource, unresolvedChildren);
      if proof.attemptId != record.attemptId || (record.sandboxUid.Some? && proof.sandboxUid != record.sandboxUid) {
        return false;
      }
      ok := CheckKind(View(), outcome, proof, resource, unresolvedChildren);
      if !ok { return; }
      if callerOutcome == Pending { callerOutcome := outcome; }
    }

    method Committed(committed: Record, proved: bool, waitExpired: bool)
      modifies this
      ensures View() == PersistCommitted(old(View()), committed, proved, waitExpired)
      ensures acknowledged == committed && callerOutcome == old(callerOutcome)
      ensures !uncertain <==> !old(uncertain) || (proved && !waitExpired)
      ensures record == committed.(resource := if uncertain then Unknown else committed.resource)
      ensures durable <==> !waitExpired && !uncertain
    {
      acknowledged := committed;
      if proved && !waitExpired { uncertain := false; }
      record := if uncertain then committed.(resource := Unknown) else committed;
      durable := !waitExpired && !uncertain;
    }

    method BeginFailed(mayHaveCommitted: bool, blocked: bool)
      modifies this
      ensures View() == SettleBeginFailure(old(View()), mayHaveCommitted, blocked)
      ensures blocked && !mayHaveCommitted && !old(durable) && !old(dispatched) && old(record).remoteFence.None?
              && old(record).resource !in {Running, BackgroundOwned} ==>
                record == old(record).(resource := NotStarted, outcome := Failed) && uncertain == old(uncertain)
      ensures mayHaveCommitted || !blocked || old(dispatched) || old(record).remoteFence.Some? ==>
                || (uncertain && !durable && record == old(record).(resource := Unknown))
                || (old(durable) && old(record).resource in {Stopped, NotStarted} && record == old(record))
      ensures callerOutcome == old(callerOutcome)
    {
      if !(mayHaveCommitted || durable) && !dispatched && record.remoteFence.None?
         && record.resource != Running && record.resource != BackgroundOwned && blocked {
        record := record.(resource := NotStarted, outcome := Failed);
        return;
      }
      Mark();
    }
  }

  // ---------------------------------------------------------------- what the local machine keeps

  /** A settled outcome survives every transition of the operation. */
  lemma OutcomeSettlesOnce(o: Op, outcome: Outcome, timedOut: bool, committed: Record, proved: bool, expired: bool, blocked: bool)
    requires o.callerOutcome != Pending
    ensures SettleOutcome(o, outcome).callerOutcome == o.callerOutcome
    ensures MarkUncertain(o).callerOutcome == o.callerOutcome
    ensures SettleBeginFailure(o, expired, blocked).callerOutcome == o.callerOutcome
    ensures PersistCommitted(o, committed, proved, expired).callerOutcome == o.callerOutcome
    ensures BeginUnknown(o, timedOut).Some? ==> BeginUnknown(o, timedOut).value.callerOutcome == o.callerOutcome
    ensures BeginCancel(o).Some? ==> BeginCancel(o).value.callerOutcome == o.callerOutcome
  {}

  /** Without a proof nothing persist writes is terminal unless the local record already was. */
  lemma UnprovedStaysOpen(o: Op, patch: Patch, now: int)
    requires UpdateAllowed(o, patch) && PersistNext(o, patch, false, now).Some?
    ensures IsTerminal(PersistNext(o, patch, false, now).value) ==> IsTerminal(o.record) && !o.uncertain
  {}

  // ---------------------------------------------------------------- the registry

  type Owners = map<Id, Op>

  /** The parent a held operation names. */
  function OwnerLink(owners: Owners, id: Id): Option<Id> {
    if id in owners then owners[id].record.parent else None
  }

  ghost predicate OwnerPath(owners: Owners, path: seq<Id>) {
    |path| > 0 && forall i :: 0 <= i < |path| - 1 ==> OwnerLinkAt(owners, path, i)
  }

  predicate OwnerLinkAt(owners: Owners, path: seq<Id>, i: nat)
    requires i + 1 < |path|
  {
    OwnerLink(owners, path[i]) == Some(path[i + 1])
  }

  /** `ancestor` is reached from `descendant` by zero or more parent links of held operations. */
  ghost predicate IsAncestor(owners: Owners, ancestor: Id, descendant: Id) {
    exists path :: OwnerPath(owners, path) && path[0] == descendant && path[|path| - 1] == ancestor
  }

  lemma {:induction false} ClosedSetHoldsPath(owners: Owners, closed: set<Id>, path: seq<Id>, i: nat)
    requires OwnerPath(owners, path) && path[0] in closed && i < |path|
    requires forall x :: x in closed && OwnerLink(owners, x).Some? ==> OwnerLink(owners, x).value in closed
    ensures path[i] in closed
  {
    if i > 0 {
      ClosedSetHoldsPath(owners, closed, path, i - 1);
      assert OwnerLinkAt(owners, path, i - 1);
    }
  }

  lemma ExtendOwnerPath(owners: Owners, path: seq<Id>, id: Id)
    requires OwnerPath(owners, path) && OwnerLink(owners, path[|path| - 1]) == Some(id)
    ensures OwnerPath(owners, path + [id])
  {
    forall i | 0 <= i < |path| ensures OwnerLinkAt(owners, path + [id], i) {
      if i < |path| - 1 { assert OwnerLinkAt(owners, path, i); }
    }
  }

  /** The source's walk, which stops at the first repeated id, decides ancestry exactly. */
  method WalkOwners(owners: Owners, ancestor: Id, descendant: Id) returns (found: bool)
    ensures found <==> IsAncestor(owners, ancestor, descendant)
  {
    var seen: set<Id> := {};
    var id := Some(descendant);
    ghost var path: seq<Id> := [];
    while id.Some? && id.value !in seen
      invariant ancestor !in seen
      invariant id.Some? ==> OwnerPath(owners, path + [id.value]) && (path + [id.value])[0] == descendant
      invariant descendant in seen || id == Some(descendant)
      invariant forall x :: x in seen ==> OwnerLink(owners, x) == id || (OwnerLink(owners, x).Some? ==> OwnerLink(owners, x).value in seen)
      invariant seen <= owners.Keys || id.None?
      decreases owners.Keys - seen, id.Some?
    {
      path := path + [id.value];
      if id.value == ancestor {
        return true;
      }
      seen := seen + {id.value};
      id := OwnerLink(owners, id.value);
      if id.Some? { ExtendOwnerPath(owners, path, id.value); }
    }
    forall p | OwnerPath(owners, p) && p[0] == descendant ensures p[|p| - 1] != ancestor {
      ClosedSetHoldsPath(owners, seen, p, |p| - 1);
    }
    found := false;
  }

  /** blocksAdmission: None where the scope test throws. */
  ghost function BlocksAdmission(
    owners: Owners, ownerId: Id, r: Record, scope: WritableScope, invocationId: Option<Id>, ignore: Option<Id>): Option<bool>
  {
    if Some(r.operationId) == ignore || IsTerminal(r) then Some(false)
    else
      var conflict := AdmissionScopeConflicts(r, scope);
      if conflict != Some(true) then conflict
      else if r.resource == Unknown || r.resource == StopRequested then Some(true)
      else if r.resource == BackgroundOwned then Some(false)
      else if ignore.Some? && r.ownerId == ownerId && IsAncestor(owners, r.operationId, ignore.value) then Some(false)
      else if r.ownerId != ownerId || r.operationId !in owners then Some(true)
      else Some(r.kind == Provision || r.kind == Ensure || (invocationId.Some? && invocationId.value == r.invocationId))
  }

  /** The conflict test begin hands to the journal for a new record. */
  ghost function BeginConflict(owners: Owners, record: Record, other: Record): Option<bool> {
    if record.parent.Some? && IsAncestor(owners, other.operationId, record.parent.value)
       && other.resource != Unknown && other.resource != StopRequested then Some(false)
    else BlocksAdmission(owners, record.ownerId, other, record.scope, Some(record.invocationId), Some(record.operationId))
  }

  // ---------------------------------------------------------------- what admission decides

  /** `other` is the new record's parent or one of that parent's ancestors. */
  ghost predicate Above(owners: Owners, record: Record, other: Record) {
    record.parent.Some? && IsAncestor(owners, other.operationId, record.parent.value)
  }

  /**
   * What stands in the way of a new record: any live claim on its scope that is unresolved, and any
   * other live claim but a background-owned one or an ancestor's, unless this owner holds it for a
   * task of another invocation.
   */
  ghost predicate InTheWay(owners: Owners, record: Record, other: Record) {
    && other.operationId != record.operationId
    && other.resource != Stopped && other.resource != NotStarted
    && Claims(other, record.scope)
    && (|| other.resource == Unknown
        || other.resource == StopRequested
        || (&& other.resource != BackgroundOwned
            && !Above(owners, record, other)
            && (|| other.ownerId != record.ownerId || other.operationId !in owners
                || other.kind == Provision || other.kind == Ensure
                || other.invocationId == record.invocationId)))
  }

  /** Every parent link of the new record itself leads to its parent. */
  lemma OwnLinkIsParent(owners: Owners, record: Record, other: Record)
    requires record.operationId in owners ==> owners[record.operationId].record.parent == record.parent
    requires other.operationId != record.operationId && IsAncestor(owners, other.operationId, record.operationId)
    ensures Above(owners, record, other)
  {
    var path :| OwnerPath(owners, path) && path[0] == record.operationId && path[|path| - 1] == other.operationId;
    assert OwnerLinkAt(owners, path, 0);
    forall i | 0 <= i < |path| - 2 ensures OwnerLinkAt(owners, path[1..], i) {
      assert OwnerLinkAt(owners, path, i + 1);
    }
    assert OwnerPath(owners, path[1..]);
  }

  /** The general test, for a row that is not a calm ancestor's. */
  lemma BlocksDecides(owners: Owners, record: Record, other: Record)
    requires Above(owners, record, other) ==> other.resource == Unknown || other.resource == StopRequested
    requires other.operationId != record.operationId && IsAncestor(owners, other.operationId, record.operationId) ==> Above(owners, record, other)
    ensures var blocks := BlocksAdmission(owners, record.ownerId, other, record.scope, Some(record.invocationId), Some(record.operationId));
            && (blocks.Some? ==> blocks == Some(InTheWay(owners, record, other)))
            && (blocks.None? <==>
                  && other.operationId != record.operationId && other.resource != Stopped && other.resource != NotStarted
                  && other.scope.storageId == record.scope.storageId
                  && (Forbidden(other.scope.mountSubPath) || Forbidden(record.scope.mountSubPath)))
  {
    ConflictIsClaim(other, record.scope);
  }

  /** The whole answer of begin's test: it throws only on a forbidden path, and otherwise blocks exactly on what is in the way. */
  lemma BeginConflictDecides(owners: Owners, record: Record, other: Record)
    requires record.operationId in owners ==> owners[record.operationId].record.parent == record.parent
    ensures BeginConflict(owners, record, other).Some? ==>
              BeginConflict(owners, record, other) == Some(InTheWay(owners, record, other))
    ensures BeginConflict(owners, record, other).None? <==>
              && other.operationId != record.operationId && other.resource != Stopped && other.resource != NotStarted
              && (Above(owners, record, other) ==> other.resource == Unknown || other.resource == StopRequested)
              && other.scope.storageId == record.scope.storageId
              && (Forbidden(other.scope.mountSubPath) || Forbidden(record.scope.mountSubPath))
  {
    if other.operationId != record.operationId && IsAncestor(owners, other.operationId, record.operationId) {
      OwnLinkIsParent(owners, record, other);
    }
    if !Above(owners, record, other) || other.resource == Unknown || other.resource == StopRequested {
      BlocksDecides(owners, record, other);
    }
  }
}
