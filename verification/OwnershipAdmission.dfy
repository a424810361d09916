/** What the registry's admission test and the journal's reservation decide together, over whole runs. */
module OwnershipAdmission {
  import opened Text
  import opened OwnershipState
  import opened OwnershipJournal
  import opened OwnedOperations
  import opened OwnershipProtocol
  import opened OwnershipSafety
  import opened OwnershipTheorems

  /** No row of the list stands in the way of the record, seen with this registry. */
  ghost predicate WayClear(owners: Owners, record: Record, rows: seq<Record>) {
    forall other :: other in rows ==> !InTheWay(owners, record, other)
  }

  lemma RegistryKnowsParent(s: State, id: Id)
    requires GoodAgents(s) && id in s.agents
    ensures var base := s.agents[id].base;
            base.operationId == id
            && (id in OwnersOf(s, base.ownerId) ==> OwnersOf(s, base.ownerId)[id].record.parent == base.parent)
  {
    assert GoodAgent(s, id);
  }

  /** One row, as begin's test and the reservation see it. */
  lemma RowDecides(s: State, id: Id, other: Record)
    requires GoodAgents(s) && id in s.agents
    requires !Forbidden(s.agents[id].base.scope.mountSubPath) && !Forbidden(other.scope.mountSubPath)
    ensures var base := s.agents[id].base;
            var owners := OwnersOf(s, base.ownerId);
            BeginConflict(owners, base, other) == Some(InTheWay(owners, base, other))
  {
    RegistryKnowsParent(s, id);
    BeginConflictDecides(OwnersOf(s, s.agents[id].base.ownerId), s.agents[id].base, other);
  }

  lemma ValidPaths(rows: seq<Record>, other: Record)
    requires ValidRecords(rows) && other in rows
    ensures !Forbidden(other.scope.mountSubPath)
  {
    var i :| 0 <= i < |rows| && rows[i] == other;
    assert WellFormedAt(rows, i);
    RejectedPaths(other.scope.mountSubPath);
  }

  /** The rows in the way are the ones whose test does not come back free. */
  lemma WayClearIsFree(s: State, id: Id)
    requires GoodAgents(s) && id in s.agents && ValidRecords(s.records) && !Forbidden(s.agents[id].base.scope.mountSubPath)
    ensures var base := s.agents[id].base;
            var owners := OwnersOf(s, base.ownerId);
            WayClear(owners, base, s.records) <==> Free(s.records, other => BeginConflict(owners, base, other))
  {
    var base := s.agents[id].base;
    var owners := OwnersOf(s, base.ownerId);
    forall other | other in s.records
      ensures BeginConflict(owners, base, other) == Some(InTheWay(owners, base, other))
    {
      ValidPaths(s.records, other);
      RowDecides(s, id, other);
    }
    if Free(s.records, other => BeginConflict(owners, base, other)) {
      forall other | other in s.records ensures !InTheWay(owners, base, other) {
        var i :| 0 <= i < |s.records| && s.records[i] == other;
      }
    }
  }

  /**
   * The whole answer of an owner's reservation against the journal of now. It is sent exactly when no
   * row stands in its way and there is room, and blocked exactly when some row does.
   */
  lemma AdmissionDecides(s: State, id: Id)
    requires GoodAgents(s) && id in s.agents && id !in Ids(s.records)
    requires ValidRecords(s.records) && !Forbidden(s.agents[id].base.scope.mountSubPath)
    ensures var base := s.agents[id].base;
            var owners := OwnersOf(s, base.ownerId);
            && (ReserveResult(s, id).Changed? <==> WayClear(owners, base, s.records) && HasRoom(s.records))
            && (ReserveResult(s, id).Blocked? <==> exists other :: other in s.records && InTheWay(owners, base, other))
            && (ReserveResult(s, id).Changed? ==> ReserveResult(s, id) == Changed(Compacted(s.records) + [base], base))
  {
    var base := s.agents[id].base;
    var owners := OwnersOf(s, base.ownerId);
    RegistryKnowsParent(s, id);
    WayClearIsFree(s, id);
    ReserveDecides(s.records, base, other => BeginConflict(owners, base, other));
    NothingThrows(s, id);
  }

  /** With valid rows and an allowed path the scan is clear or finds a conflict. */
  lemma NothingThrows(s: State, id: Id)
    requires GoodAgents(s) && id in s.agents
    requires ValidRecords(s.records) && !Forbidden(s.agents[id].base.scope.mountSubPath)
    ensures var base := s.agents[id].base;
            var owners := OwnersOf(s, base.ownerId);
            var conflict := other => BeginConflict(owners, base, other);
            Free(s.records, conflict) || exists i: nat :: FirstConflict(s.records, conflict, i)
  {
    var base := s.agents[id].base;
    var owners := OwnersOf(s, base.ownerId);
    var conflict := other => BeginConflict(owners, base, other);
    ScanDecides(s.records, conflict);
    if ScanRows(s.records, conflict).Throws? {
      var i: nat :| StopsAt(s.records, conflict, i);
      ValidPaths(s.records, s.records[i]);
      RowDecides(s, id, s.records[i]);
      assert false;
    }
  }

  /** begin's local test: exactly the new records with an active parent, a free slot and nothing held in their way. */
  lemma BeginDecides(s: State, r: Record)
    requires !Forbidden(r.scope.mountSubPath)
    requires forall id :: id in OwnersOf(s, r.ownerId) ==> !Forbidden(s.agents[id].op.record.scope.mountSubPath)
    ensures BeginEnabled(s, r) <==>
            && r.operationId !in s.agents
            && r.revision == 0 && r.resource == Reserved && r.outcome == Pending
            && r.sandboxUid.None? && r.dispatchedAt.None? && r.remoteFence.None?
            && |OwnersOf(s, r.ownerId)| < 128
            && (r.parent.Some? ==> ActiveParent(s, r))
            && forall id :: id in OwnersOf(s, r.ownerId) ==> !InTheWay(OwnersOf(s, r.ownerId), r, s.agents[id].op.record)
  {
    if r.operationId !in s.agents {
      NothingHeldThrows(s, r);
      HeldDecides(s, r);
      ParentDecides(s, r);
    }
  }

  lemma ParentDecides(s: State, r: Record)
    ensures r.parent.Some? ==>
              (ActiveParent(s, r) <==>
                 && r.parent.value in OwnersOf(s, r.ownerId)
                 && var p := s.agents[r.parent.value].op;
                    !p.aborted && !IsTerminal(p.record) && p.record.resource !in {Unknown, StopRequested, BackgroundOwned})
  {}

  lemma HeldDecides(s: State, r: Record)
    requires var owners := OwnersOf(s, r.ownerId);
             forall id :: id in owners ==>
               BeginConflict(owners, r, s.agents[id].op.record) == Some(InTheWay(owners, r, s.agents[id].op.record))
    ensures var owners := OwnersOf(s, r.ownerId);
            (forall id :: id in owners ==> BeginConflict(owners, r, s.agents[id].op.record) == Some(false))
            <==> (forall id :: id in owners ==> !InTheWay(owners, r, s.agents[id].op.record))
  {}

  lemma NothingHeldThrows(s: State, r: Record)
    requires !Forbidden(r.scope.mountSubPath) && r.operationId !in s.agents
    requires forall id :: id in OwnersOf(s, r.ownerId) ==> !Forbidden(s.agents[id].op.record.scope.mountSubPath)
    ensures var owners := OwnersOf(s, r.ownerId);
            forall id :: id in owners ==>
              BeginConflict(owners, r, s.agents[id].op.record) == Some(InTheWay(owners, r, s.agents[id].op.record))
  {
    var owners := OwnersOf(s, r.ownerId);
    forall id | id in owners
      ensures BeginConflict(owners, r, s.agents[id].op.record) == Some(InTheWay(owners, r, s.agents[id].op.record))
    {
      BeginConflictDecides(owners, r, s.agents[id].op.record);
    }
  }

  /** The parent is held by the same owner, reserved or running, and nobody has asked it to stop. */
  predicate ActiveParent(s: State, r: Record)
    requires r.parent.Some?
  {
    && r.parent.value in s.agents && s.agents[r.parent.value].held && s.agents[r.parent.value].base.ownerId == r.ownerId
    && !s.agents[r.parent.value].op.aborted
    && (s.agents[r.parent.value].op.record.resource == Reserved || s.agents[r.parent.value].op.record.resource == Running)
  }

  /** The write is on its way and nothing else about the owner's view changed. */
  predicate SentOut(s: State, id: Id, s': State)
    requires id in s.agents
  {
    && id in s'.agents
    && s'.inflight == s.inflight[s.nextWrite := Write(s.version, s.records, Compacted(s.records) + [s.agents[id].base], s.agents[id].base, None)]
    && s'.agents[id] == s.agents[id].(reserveWrite := Some(s.nextWrite))
  }

  lemma SentReservation(s: State, id: Id)
    requires id in s.agents && ReserveResult(s, id) == Changed(Compacted(s.records) + [s.agents[id].base], s.agents[id].base)
    requires ValidRecords(Compacted(s.records) + [s.agents[id].base])
    ensures SentOut(s, id, AfterSendReserve(s, id))
  {}

  /** begin failed: nothing is sent, and a deterministic conflict closes the local record if nothing was ever dispatched. */
  predicate TurnedDown(s: State, id: Id, s': State, blocked: bool)
    requires id in s.agents
  {
    var before := s.agents[id].op;
    && id in s'.agents && s'.inflight == s.inflight && s'.agents[id].job == NoJob
    && (s.agents[id].pc == Beginning && blocked && !before.durable && !before.dispatched && before.record.remoteFence.None?
        && before.record.resource != Running && before.record.resource != BackgroundOwned ==>
          s'.agents[id].op == before.(record := before.record.(resource := NotStarted, outcome := Failed)))
    && (s.agents[id].pc == Beginning && !blocked && before.record.resource == Reserved ==>
          s'.agents[id].op.uncertain && s'.agents[id].op.record.resource == Unknown)
  }

  lemma RefusedReservation(s: State, id: Id)
    requires id in s.agents && !ReserveResult(s, id).Changed?
    ensures TurnedDown(s, id, AfterSendReserve(s, id), ReserveResult(s, id).Blocked?)
  {}

  /** What the reservation step does with that answer. */
  lemma ReservationStep(s: State, id: Id)
    requires GoodAgents(s) && id in s.agents && id !in Ids(s.records)
    requires ValidRecords(s.records) && ValidRecords(Compacted(s.records) + [s.agents[id].base])
    ensures var way := WayClear(OwnersOf(s, s.agents[id].base.ownerId), s.agents[id].base, s.records);
            if way && HasRoom(s.records) then SentOut(s, id, AfterSendReserve(s, id))
            else TurnedDown(s, id, AfterSendReserve(s, id), !way)
  {
    NewestPathIsAllowed(s.records, s.agents[id].base);
    AdmissionDecides(s, id);
    if ReserveResult(s, id).Changed? { SentReservation(s, id); } else { RefusedReservation(s, id); }
  }

  lemma NewestPathIsAllowed(rows: seq<Record>, base: Record)
    requires ValidRecords(Compacted(rows) + [base])
    ensures !Forbidden(base.scope.mountSubPath)
  {
    var all := Compacted(rows) + [base];
    assert all[|all| - 1] == base;
    ValidPaths(all, base);
  }

  // ---------------------------------------------------------------- over runs

  /** At time k the owner of r sent r's reservation, with the journal as in `rows`. */
  ghost predicate ReservedAt(run: seq<State>, k: nat, r: Record, rows: seq<Record>) {
    && k + 1 < |run| && Takes(run, k, SendReserve(r.operationId))
    && r.operationId in run[k].agents && run[k].agents[r.operationId].base == r
    && run[k].records == rows && ReserveResult(run[k], r.operationId).Changed?
  }

  /** Every reservation in flight at time i was sent before, against the journal it carries. */
  ghost predicate ReservationsTraced(run: seq<State>, i: nat)
    requires i < |run|
  {
    forall n :: n in run[i].inflight && run[i].inflight[n].expected.None? ==> Traced(run, i, run[i].inflight[n])
  }

  ghost predicate Traced(run: seq<State>, i: nat, w: Write) {
    exists k :: 0 <= k < i && ReservedAt(run, k, w.subject, w.snapshot)
  }

  /** The write is the reservation this owner sends now. */
  ghost predicate SentNow(s: State, step: Step, w: Write) {
    && step == SendReserve(w.subject.operationId) && w.subject.operationId in s.agents
    && s.agents[w.subject.operationId].base == w.subject
    && w.snapshot == s.records && ReserveResult(s, w.subject.operationId).Changed?
  }

  /** A reservation in flight was in flight before or is being sent now. */
  lemma ReservationOrigin(s: State, step: Step, n: nat)
    requires GoodAgents(s) && GoodHistory(s) && GoodRecords(s)
    requires Enabled(s, step) && n in Apply(s, step).inflight && Apply(s, step).inflight[n].expected.None?
    ensures (n in s.inflight && s.inflight[n] == Apply(s, step).inflight[n]) || SentNow(s, step, Apply(s, step).inflight[n])
  {
    match step {
      case SendReserve(id) =>
        UnreservedIsAbsent(s, id);
        RegistryKnowsParent(s, id);
        ReservationSent(s, id, n);
      case SendUpdate(id) => UpdatingReservesNothing(s, id, n);
      case _ => OtherStepsReserveNothing(s, step, n);
    }
  }

  lemma UpdatingReservesNothing(s: State, id: Id, n: nat)
    requires id in s.agents && s.agents[id].job.UpdateJob?
    requires n in AfterSendUpdate(s, id).inflight && AfterSendUpdate(s, id).inflight[n].expected.None?
    ensures n in s.inflight && s.inflight[n] == AfterSendUpdate(s, id).inflight[n]
  {}

  lemma OtherStepsReserveNothing(s: State, step: Step, n: nat)
    requires Enabled(s, step) && !step.SendReserve? && !step.SendUpdate?
    requires n in Apply(s, step).inflight && Apply(s, step).inflight[n].expected.None?
    ensures n in s.inflight && s.inflight[n] == Apply(s, step).inflight[n]
  {}

  lemma ReservationSent(s: State, id: Id, n: nat)
    requires id in s.agents && s.agents[id].base.operationId == id && id !in Ids(s.records)
    requires n in AfterSendReserve(s, id).inflight
    ensures (n in s.inflight && s.inflight[n] == AfterSendReserve(s, id).inflight[n])
            || SentNow(s, SendReserve(id), AfterSendReserve(s, id).inflight[n])
  {
    if ReserveResult(s, id).Changed? { ReservedChange(s, id); }
  }

  lemma ReservationTraced(run: seq<State>, i: nat, step: Step, n: nat)
    requires IsRun(run) && i + 1 < |run| && Takes(run, i, step) && ReservationsTraced(run, i)
    requires n in run[i + 1].inflight && run[i + 1].inflight[n].expected.None?
    ensures Traced(run, i + 1, run[i + 1].inflight[n])
  {
    var w := run[i + 1].inflight[n];
    RunInv(run, i);
    ReservationOrigin(run[i], step, n);
    if n in run[i].inflight && run[i].inflight[n] == w {
      assert Traced(run, i, w);
    } else {
      assert ReservedAt(run, i, w.subject, w.snapshot);
    }
  }

  lemma {:induction false} RunTracesReservations(run: seq<State>, i: nat)
    requires IsRun(run) && i < |run|
    ensures ReservationsTraced(run, i)
  {
    if i > 0 {
      RunTracesReservations(run, i - 1);
      assert NextAt(run, i - 1);
      var step :| Takes(run, i - 1, step);
      forall n | n in run[i].inflight && run[i].inflight[n].expected.None? ensures Traced(run, i, run[i].inflight[n]) {
        ReservationTraced(run, i - 1, step, n);
      }
    }
  }

  /** A new row comes from a reservation committed over the journal it was checked against. */
  lemma InsertionOrigin(s: State, step: Step, r: Record)
    requires Inv(s) && Enabled(s, step) && r in Apply(s, step).records && r.operationId !in Ids(s.records)
    ensures step.Commit? && step.write in s.inflight
    ensures s.inflight[step.write].expected.None? && s.inflight[step.write].subject == r
    ensures s.inflight[step.write].snapshot == s.records
  {
    if step.Commit? {
      assert GoodWrite(s, step.write, s.inflight[step.write]);
      if r != s.inflight[step.write].subject { CommitRows(s, step.write, r); }
    } else {
      OnlyCommitsWrite(s, step);
    }
  }

  /**
   * In every run a row enters the journal only while nothing in it stands in the row's way, as its
   * owner's registry saw it when the reservation was sent: no live claim on the scope is unresolved, and
   * each one that is neither background-owned nor an ancestor's is held by this very owner, for an
   * invocation, warmup or receiver handoff of another invocation. And there was room for it.
   */
  lemma RowsEnterUnopposed(run: seq<State>, i: nat, r: Record)
    requires IsRun(run) && i + 1 < |run| && r in run[i + 1].records && r.operationId !in Ids(run[i].records)
    ensures HasRoom(run[i].records)
    ensures exists k :: 0 <= k <= i && ReservedAt(run, k, r, run[i].records) && WayClear(OwnersOf(run[k], r.ownerId), r, run[i].records)
  {
    var k := ReservedBefore(run, i, r);
    JournalIsValid(run, i + 1);
    ValidPaths(run[i + 1].records, r);
    ReservedUnopposed(run, k, r);
  }

  lemma InsertedFrom(s: State, s': State, r: Record) returns (n: nat)
    requires Inv(s) && Next(s, s') && r in s'.records && r.operationId !in Ids(s.records)
    ensures n in s.inflight && s.inflight[n].expected.None?
    ensures s.inflight[n].subject == r && s.inflight[n].snapshot == s.records
  {
    var step :| Enabled(s, step) && s' == Apply(s, step);
    InsertionOrigin(s, step, r);
    n := step.write;
  }

  lemma ReservedBefore(run: seq<State>, i: nat, r: Record) returns (k: nat)
    requires IsRun(run) && i + 1 < |run| && r in run[i + 1].records && r.operationId !in Ids(run[i].records)
    ensures k < i && ReservedAt(run, k, r, run[i].records)
  {
    RunInv(run, i);
    assert NextAt(run, i);
    var n := InsertedFrom(run[i], run[i + 1], r);
    RunTracesReservations(run, i);
    assert Traced(run, i, run[i].inflight[n]);
    k :| 0 <= k < i && ReservedAt(run, k, r, run[i].records);
  }

  /** The reservation was sent before the row stood in the journal. */
  lemma ReservationWasChecked(run: seq<State>, k: nat, r: Record)
    requires IsRun(run) && k + 1 < |run| && ReservedAt(run, k, r, run[k].records)
    ensures r.operationId !in Ids(run[k].records)
  {
    RunInv(run, k);
    UnreservedIsAbsent(run[k], r.operationId);
  }

  lemma ReservedUnopposed(run: seq<State>, k: nat, r: Record)
    requires IsRun(run) && k + 1 < |run| && ReservedAt(run, k, r, run[k].records) && !Forbidden(r.scope.mountSubPath)
    ensures WayClear(OwnersOf(run[k], r.ownerId), r, run[k].records) && HasRoom(run[k].records)
  {
    RunInv(run, k);
    ReservationWasChecked(run, k, r);
    JournalIsValid(run, k);
    AdmissionDecides(run[k], r.operationId);
  }

  /**
   * What that means for two tasks of one owner: while a row of an owner is live, claims the scope and is
   * neither background-owned nor above the new record, the new record enters only beside an invocation,
   * warmup or receiver of another invocation that this owner still holds, and never beside an unresolved one.
   */
  lemma NoReservationBesideClaim(run: seq<State>, i: nat, r: Record, other: Record)
    requires IsRun(run) && i + 1 < |run|
    requires r in run[i + 1].records && r.operationId !in Ids(run[i].records)
    requires other in run[i].records && other.resource != Stopped && other.resource != NotStarted && Claims(other, r.scope)
    ensures other.resource == Reserved || other.resource == Running || other.resource == BackgroundOwned
    ensures other.ownerId != r.ownerId ==> other.resource == BackgroundOwned
    ensures other.resource == BackgroundOwned
            || exists k :: 0 <= k <= i && ReservedAt(run, k, r, run[i].records)
                 && (|| Above(OwnersOf(run[k], r.ownerId), r, other)
                     || (&& other.operationId in OwnersOf(run[k], r.ownerId)
                         && (other.kind == Invocation || other.kind == Warmup || other.kind == Receiver)
                         && other.invocationId != r.invocationId))
  {
    RowsEnterUnopposed(run, i, r);
    var k :| 0 <= k <= i && ReservedAt(run, k, r, run[i].records) && WayClear(OwnersOf(run[k], r.ownerId), r, run[i].records);
    assert !InTheWay(OwnersOf(run[k], r.ownerId), r, other);
    RunInv(run, k);
    var m :| 0 <= m < |run[i].records| && run[i].records[m] == other;
    if Above(OwnersOf(run[k], r.ownerId), r, other) { AncestorsShareOwner(run[k], r.operationId, other); }
  }

  // ---------------------------------------------------------------- two owners

  /** Being background-owned once is on record in the versions. */
  ghost predicate BackgroundOnRecord(s: State) {
    forall id :: id in s.everBackground ==> id in s.hist && exists k :: 0 <= k < |s.hist[id]| && s.hist[id][k].resource == BackgroundOwned
  }

  lemma CommitRecordsBackground(s: State, n: nat)
    requires Inv(s) && BackgroundOnRecord(s) && n in s.inflight && s.inflight[n].base == s.version
    ensures BackgroundOnRecord(AfterCommit(s, n))
  {
    var s' := AfterCommit(s, n);
    CommitExtendsHistory(s, n);
    assert GoodWrite(s, n, s.inflight[n]);
    CommitExtends(s, n);
    forall id | id in s'.everBackground
      ensures id in s'.hist && exists k :: 0 <= k < |s'.hist[id]| && s'.hist[id][k].resource == BackgroundOwned
    {
      if id in s.everBackground {
        var k :| 0 <= k < |s.hist[id]| && s.hist[id][k].resource == BackgroundOwned;
        assert s'.hist[id][k] == s.hist[id][k];
      } else {
        assert s'.hist[id][|s'.hist[id]| - 1] == s.inflight[n].subject;
      }
    }
  }

  lemma NothingElseIsBackground(s: State, step: Step)
    requires Enabled(s, step) && !step.Commit?
    ensures Apply(s, step).everBackground == s.everBackground && Apply(s, step).hist == s.hist
  {
    if step.SendReserve? { ReservingWritesNothing(s, step.id); }
    else if step.SendUpdate? { UpdatingWritesNothing(s, step.id); }
  }

  lemma {:induction false} RunRecordsBackground(run: seq<State>, i: nat)
    requires IsRun(run) && i < |run|
    ensures BackgroundOnRecord(run[i])
  {
    if i > 0 {
      RunRecordsBackground(run, i - 1);
      RunInv(run, i - 1);
      assert NextAt(run, i - 1);
      var step :| Enabled(run[i - 1], step) && run[i] == Apply(run[i - 1], step);
      if step.Commit? { CommitRecordsBackground(run[i - 1], step.write); } else { NothingElseIsBackground(run[i - 1], step); }
    }
  }

  /**
   * At every time, of two rows of different owners of which the first lays claim to the other's scope,
   * the one inserted first is stopped, not started, or was background-owned in one of its versions.
   */
  lemma OwnersKeepApart(run: seq<State>, i: nat, a: Record, b: Record)
    requires IsRun(run) && i < |run| && a in run[i].records && b in run[i].records
    requires a.ownerId != b.ownerId && Claims(a, b.scope)
    ensures a.operationId in run[i].born && b.operationId in run[i].born && a.operationId in run[i].hist
    ensures run[i].born[a.operationId] < run[i].born[b.operationId] ==>
              || a.resource == Stopped || a.resource == NotStarted
              || exists k :: 0 <= k < |run[i].hist[a.operationId]| && run[i].hist[a.operationId][k].resource == BackgroundOwned
  {
    JournalIsValid(run, i);
    ValidPaths(run[i].records, a);
    ValidPaths(run[i].records, b);
    ConflictIsClaim(a, b.scope);
    RunInv(run, i);
    RunRecordsBackground(run, i);
    RowsExclusive(run[i], a, b);
    RowIsKnown(run[i], a);
    RowIsKnown(run[i], b);
  }

  lemma RowIsKnown(s: State, r: Record)
    requires GoodHistory(s) && GoodRecords(s) && r in s.records
    ensures r.operationId in s.born && r.operationId in s.hist
  {
    var k :| 0 <= k < |s.records| && s.records[k] == r;
    assert RowIsLatest(s, s.records[k]);
  }
}
