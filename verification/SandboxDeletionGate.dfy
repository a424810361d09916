/** Every destructive write traced to the gate its client passed (sandboxMutationGate.ts, sandboxDeletion.ts). */
module SandboxDeletionGate {
  import opened Text
  import opened SandboxResource
  import opened SandboxProtocol

  ghost predicate Takes(run: seq<State>, k: nat, step: Step)
    requires k + 1 < |run|
  {
    Enabled(run[k], step) && run[k + 1] == Apply(run[k], step)
  }

  /** At time k the client read the object of this uid with these annotations and nothing protected it then. */
  ghost predicate GatedAt(run: seq<State>, k: nat, c: nat, uid: Uid, notes: Notes, allowed: Notes -> bool) {
    && k + 1 < |run| && run[k].stored.Some? && run[k].stored.value.uid == uid && run[k].stored.value.body.notes == notes
    && allowed(notes)
    && exists now :: Takes(run, k, PassGate(c, now, allowed)) && NothingProtects(notes, now)
  }

  ghost predicate PassedGate(run: seq<State>, i: nat, c: nat, uid: Uid, notes: Notes, allowed: Notes -> bool) {
    exists k :: 0 <= k < i && GatedAt(run, k, c, uid, notes, allowed)
  }

  /** At time k the client, whose DELETE of this uid had gone through, read it again and nothing protected it. */
  ghost predicate RecheckedAt(run: seq<State>, k: nat, c: nat, uid: Uid, notes: Notes) {
    && k + 1 < |run| && run[k].stored.Some? && run[k].stored.value.uid == uid && run[k].stored.value.body.notes == notes
    && c in run[k].clients && run[k].clients[c] == Reclaiming(uid)
    && exists now :: Takes(run, k, ReadForRemoval(c, now)) && NothingProtects(notes, now)
  }

  ghost predicate Rechecked(run: seq<State>, i: nat, c: nat, uid: Uid, notes: Notes) {
    exists k :: 0 <= k < i && RecheckedAt(run, k, c, uid, notes)
  }

  /** At time k the client's DELETE of this uid went through. */
  ghost predicate DeletedAt(run: seq<State>, k: nat, c: nat, uid: Uid) {
    k + 1 < |run| && Takes(run, k, CommitDelete(c)) && run[k].clients[c].uid == uid
  }

  ghost predicate Deleted(run: seq<State>, i: nat, c: nat, uid: Uid) {
    exists k :: 0 <= k < i && DeletedAt(run, k, c, uid)
  }

  /** What a client on its way to a destructive write has behind it. */
  ghost predicate Traced(run: seq<State>, i: nat, c: nat, client: Client) {
    match client
    case Patching(_, _) => true
    case Gated(read, allowed) => PassedGate(run, i, c, read.uid, read.body.notes, allowed)
    case AddingFinalizer(read, allowed) => PassedGate(run, i, c, read.uid, read.body.notes, allowed)
    case SendingDelete(uid, _, checked, allowed) => PassedGate(run, i, c, uid, checked, allowed)
    case Reclaiming(owned) => Deleted(run, i, c, owned)
    case RemovingFinalizer(read) => Rechecked(run, i, c, read.uid, read.body.notes) && Deleted(run, i, c, read.uid)
  }

  ghost predicate AllTraced(run: seq<State>, i: nat)
    requires i < |run|
  {
    forall c :: c in run[i].clients ==> Traced(run, i, c, run[i].clients[c])
  }

  lemma TracedLater(run: seq<State>, i: nat, c: nat, client: Client)
    requires Traced(run, i, c, client)
    ensures Traced(run, i + 1, c, client)
  {}

  /** The client that takes the step. */
  lemma MoverTraced(run: seq<State>, i: nat, step: Step)
    requires IsRun(run) && i + 1 < |run| && Takes(run, i, step) && Registers(step) && AllTraced(run, i)
    ensures step.client in run[i + 1].clients && Traced(run, i + 1, step.client, run[i + 1].clients[step.client])
  {
    var s, c := run[i], step.client;
    RunInv(run, i);
    if c in s.clients {
      assert GoodClient(s, s.clients[c]);
      TracedLater(run, i, c, s.clients[c]);
    }
    match step {
      case PassGate(_, now, allowed) =>
        GateDecides(s.stored.value.body.notes, now, allowed);
        assert GatedAt(run, i, c, s.stored.value.uid, s.stored.value.body.notes, allowed);
      case ReadForRemoval(_, now) =>
        GateDecides(s.stored.value.body.notes, now, notes => true);
        assert RecheckedAt(run, i, c, s.stored.value.uid, s.stored.value.body.notes);
      case CommitDelete(_) =>
        assert DeletedAt(run, i, c, s.clients[c].uid);
      case _ =>
    }
  }

  lemma ClientTraced(run: seq<State>, i: nat, step: Step, c: nat)
    requires IsRun(run) && i + 1 < |run| && Takes(run, i, step) && AllTraced(run, i) && c in run[i + 1].clients
    ensures Traced(run, i + 1, c, run[i + 1].clients[c])
  {
    OtherClientsSame(run[i], step, c);
    if Registers(step) && c == step.client {
      MoverTraced(run, i, step);
    } else {
      TracedLater(run, i, c, run[i].clients[c]);
    }
  }

  lemma {:induction false} RunIsTraced(run: seq<State>, i: nat)
    requires IsRun(run) && i < |run|
    ensures AllTraced(run, i)
  {
    if i > 0 {
      RunIsTraced(run, i - 1);
      assert NextAt(run, i - 1);
      var step :| Takes(run, i - 1, step);
      forall c | c in run[i].clients ensures Traced(run, i, c, run[i].clients[c]) {
        ClientTraced(run, i - 1, step, c);
      }
    }
  }

  /**
   * In every run, a DELETE that lands removes an object its client had read at its gate with exactly the
   * annotations it still carries. At that read there was no lease, no background protection reached
   * beyond the time of the read, and the caller's predicate held; so there is no lease now either.
   */
  lemma DeletesPassTheirGate(run: seq<State>, i: nat, c: nat)
    requires IsRun(run) && i < |run| && Enabled(run[i], CommitDelete(c))
    ensures var o := run[i].stored.value;
            && (forall k :: k in o.body.notes ==> !k.LeaseOf?)
            && exists k :: 0 <= k < i && GatedAt(run, k, c, o.uid, o.body.notes, run[i].clients[c].allowed)
  {
    RunIsTraced(run, i);
    DeleteMeetsItsGate(run, i, c);
    var o := run[i].stored.value;
    assert PassedGate(run, i, c, o.uid, o.body.notes, run[i].clients[c].allowed);
    var k :| 0 <= k < i && GatedAt(run, k, c, o.uid, o.body.notes, run[i].clients[c].allowed);
  }

  /**
   * In every run, a finalizer comes off only by a client whose own DELETE of that uid went through, and
   * only from an object it had read again since with exactly the annotations it still carries, free of
   * leases and of any protection reaching beyond the time of that read.
   */
  lemma RemovalsAreRechecked(run: seq<State>, i: nat, c: nat)
    requires IsRun(run) && i < |run| && Enabled(run[i], CommitRemoval(c))
    ensures var o := run[i].stored.value;
            && (forall k :: k in o.body.notes ==> !k.LeaseOf?)
            && (exists k :: 0 <= k < i && RecheckedAt(run, k, c, o.uid, o.body.notes))
            && (exists k :: 0 <= k < i && DeletedAt(run, k, c, o.uid))
  {
    RunIsTraced(run, i);
    RunInv(run, i);
    assert GoodClient(run[i], run[i].clients[c]);
    var o := run[i].stored.value;
    assert Rechecked(run, i, c, o.uid, o.body.notes) && Deleted(run, i, c, o.uid);
    var k :| 0 <= k < i && RecheckedAt(run, k, c, o.uid, o.body.notes);
  }

  /** A protected object cannot be passed: while a lease or a later deadline stands, no gate opens and no finalizer read goes on. */
  lemma ProtectionHolds(s: State, c: nat, now: int, allowed: Notes -> bool)
    requires s.stored.Some?
    requires var notes := s.stored.value.body.notes;
             (exists k :: k in notes && k.LeaseOf?) || (ProtectedUntil in notes && notes[ProtectedUntil].Moment? && notes[ProtectedUntil].ms > now)
    ensures !Enabled(s, PassGate(c, now, allowed)) && !Enabled(s, ReadForRemoval(c, now))
  {
    GateDecides(s.stored.value.body.notes, now, allowed);
  }

  /** And an unprotected one can: the gate is no stricter than that. */
  lemma UnprotectedPasses(s: State, c: nat, now: int, allowed: Notes -> bool)
    requires s.stored.Some? && c !in s.clients && allowed(s.stored.value.body.notes) && NothingProtects(s.stored.value.body.notes, now)
    ensures Enabled(s, PassGate(c, now, allowed))
    ensures Apply(s, PassGate(c, now, allowed)).clients[c] == Gated(s.stored.value, allowed)
  {
    GateDecides(s.stored.value.body.notes, now, allowed);
  }
}
