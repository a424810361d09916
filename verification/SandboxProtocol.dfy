/**
 * Any number of clients writing one sandbox object by uid and resourceVersion: annotation patches,
 * gated deletions with their finalizer, and writes whose reply is lost
 * (sandboxMutationGate.ts, sandboxDeletion.ts, sandboxDeletionGeneration.ts, sandboxLifecycleMutations.ts).
 */
module SandboxProtocol {
  import opened Text
  import opened SandboxResource
  import opened SandboxHistory

  type Uid = string

  datatype Object = Object(uid: Uid, version: nat, body: Body)

  /** What a client holds between its read and the reply to its write. */
  datatype Client =
    | Patching(request: Request, read: Object)
    | Gated(read: Object, allowed: Notes -> bool)
    | AddingFinalizer(read: Object, allowed: Notes -> bool)
    | SendingDelete(uid: Uid, version: nat, checked: Notes, allowed: Notes -> bool)
    | Reclaiming(owned: Uid)
    | RemovingFinalizer(read: Object)

  /** `clock` is the newest resourceVersion, `uids` every uid used so far, `gated` those deleted through the gate. */
  datatype State = State(stored: Option<Object>, clients: map<nat, Client>, clock: nat, uids: set<Uid>, gated: set<Uid>)

  const INIT := State(None, map[], 0, {}, {})

  datatype Step =
    | Create(uid: Uid, notes: Notes)
    | ReadForPatch(client: nat, request: Request)
    | CommitPatch(client: nat)
    | PassGate(client: nat, now: int, allowed: Notes -> bool)
    | SendFinalizer(client: nat)
    | CommitFinalizer(client: nat)
    | SendDelete(client: nat)
    | CommitDelete(client: nat)
    | ReadForRemoval(client: nat, now: int)
    | CommitRemoval(client: nat)
    | Reap
    | Drop(client: nat)
    // controllers and operators outside the orchestrator
    | ForeignWrite(delete: bool)

  predicate Matches(s: State, uid: Uid, version: nat) {
    s.stored.Some? && s.stored.value.uid == uid && s.stored.value.version == version
  }

  predicate Free(s: State, c: nat) {
    c !in s.clients
  }

  predicate Enabled(s: State, step: Step) {
    match step
    case Create(uid, _) => s.stored.None? && uid !in s.uids
    case ReadForPatch(c, r) => Free(s, c) && s.stored.Some? && Respond(s.stored.value.body, r).Patch?
    case CommitPatch(c) =>
      c in s.clients && s.clients[c].Patching? && Matches(s, s.clients[c].read.uid, s.clients[c].read.version)
    case PassGate(c, now, allowed) => Free(s, c) && s.stored.Some? && GateOpen(s.stored.value.body.notes, now, allowed)
    case SendFinalizer(c) =>
      && c in s.clients && s.clients[c].Gated? && !s.clients[c].read.body.finalizer
      && Matches(s, s.clients[c].read.uid, s.clients[c].read.version) && !s.stored.value.body.deleting
    case CommitFinalizer(c) =>
      c in s.clients && s.clients[c].AddingFinalizer? && Matches(s, s.clients[c].read.uid, s.clients[c].read.version)
    case SendDelete(c) => c in s.clients && s.clients[c].Gated? && s.clients[c].read.body.finalizer
    case CommitDelete(c) =>
      c in s.clients && s.clients[c].SendingDelete? && Matches(s, s.clients[c].uid, s.clients[c].version)
    case ReadForRemoval(c, now) =>
      && c in s.clients && s.clients[c].Reclaiming? && s.stored.Some? && s.stored.value.uid == s.clients[c].owned
      && NoLeases(s.stored.value.body.notes) && Unprotected(s.stored.value.body.notes, now) && s.stored.value.body.finalizer
    case CommitRemoval(c) =>
      c in s.clients && s.clients[c].RemovingFinalizer? && Matches(s, s.clients[c].read.uid, s.clients[c].read.version)
    case Reap => s.stored.Some? && s.stored.value.body.deleting && !s.stored.value.body.finalizer
    case Drop(_) => true
    case ForeignWrite(_) => s.stored.Some?
  }

  /** The object gets a new version of its body. */
  function Store(s: State, body: Body): State
    requires s.stored.Some?
  {
    s.(stored := Some(Object(s.stored.value.uid, s.clock + 1, body)), clock := s.clock + 1)
  }

  function WithClient(s: State, c: nat, client: Client): State {
    s.(clients := s.clients[c := client])
  }

  function Without(s: State, c: nat): State {
    s.(clients := s.clients - {c})
  }

  function Apply(s: State, step: Step): State
    requires Enabled(s, step)
  {
    match step
    case Create(uid, notes) =>
      s.(stored := Some(Object(uid, s.clock + 1, Body(false, false, notes))), clock := s.clock + 1, uids := s.uids + {uid})
    case ReadForPatch(c, r) => WithClient(s, c, Patching(r, s.stored.value))
    case CommitPatch(c) =>
      // the patch was computed from the snapshot, not from the object it lands on
      var reply := Respond(s.clients[c].read.body, s.clients[c].request);
      Store(Without(s, c), if reply.Patch? then s.stored.value.body.(notes := reply.notes) else s.stored.value.body)
    case PassGate(c, _, allowed) => WithClient(s, c, Gated(s.stored.value, allowed))
    case SendFinalizer(c) => WithClient(s, c, AddingFinalizer(s.stored.value, s.clients[c].allowed))
    case CommitFinalizer(c) =>
      var client := s.clients[c];
      WithClient(Store(s, s.stored.value.body.(finalizer := true)), c,
                 SendingDelete(client.read.uid, s.clock + 1, client.read.body.notes, client.allowed))
    case SendDelete(c) =>
      var client := s.clients[c];
      WithClient(s, c, SendingDelete(client.read.uid, client.read.version, client.read.body.notes, client.allowed))
    case CommitDelete(c) =>
      var uid := s.clients[c].uid;
      WithClient(Store(s, s.stored.value.body.(deleting := true)), c, Reclaiming(uid)).(gated := s.gated + {uid})
    case ReadForRemoval(c, _) => WithClient(s, c, RemovingFinalizer(s.stored.value))
    case CommitRemoval(c) => Store(Without(s, c), s.stored.value.body.(finalizer := false))
    case Reap => s.(stored := None)
    case Drop(c) => Without(s, c)
    case ForeignWrite(delete) => Store(s, if delete then s.stored.value.body.(deleting := true) else s.stored.value.body)
  }

  ghost predicate Next(s: State, s': State) {
    exists step :: Enabled(s, step) && s' == Apply(s, step)
  }

  ghost predicate NextAt(run: seq<State>, i: nat)
    requires i + 1 < |run|
  {
    Next(run[i], run[i + 1])
  }

  ghost predicate IsRun(run: seq<State>) {
    |run| > 0 && run[0] == INIT && forall i :: 0 <= i < |run| - 1 ==> NextAt(run, i)
  }

  // ---------------------------------------------------------------- the invariant

  /** A version number stands for one content: a snapshot as new as the object is the object. */
  predicate Known(s: State, o: Object) {
    o.version <= s.clock && (s.stored.Some? && s.stored.value.version == o.version ==> s.stored.value == o)
  }

  /** A DELETE in flight: if it lands, it lands on the annotations its gate checked. */
  predicate DeleteFits(s: State, uid: Uid, version: nat, checked: Notes, allowed: Notes -> bool) {
    && version <= s.clock && NoLeases(checked) && allowed(checked)
    && (s.stored.Some? && s.stored.value.version == version ==>
          s.stored.value.uid == uid && s.stored.value.body.notes == checked && s.stored.value.body.finalizer)
  }

  predicate GoodClient(s: State, client: Client) {
    match client
    case Patching(r, read) => Known(s, read) && Respond(read.body, r).Patch?
    case Gated(read, allowed) => Known(s, read) && NoLeases(read.body.notes) && allowed(read.body.notes)
    case AddingFinalizer(read, allowed) => Known(s, read) && NoLeases(read.body.notes) && allowed(read.body.notes)
    case SendingDelete(uid, version, checked, allowed) => DeleteFits(s, uid, version, checked, allowed)
    case Reclaiming(_) => true
    case RemovingFinalizer(read) => Known(s, read)
  }

  predicate GoodObject(s: State) {
    && (s.stored.Some? ==>
          && s.stored.value.version <= s.clock && s.stored.value.uid in s.uids
          && (s.stored.value.uid in s.gated ==> s.stored.value.body.deleting && NoLeases(s.stored.value.body.notes)))
    && s.gated <= s.uids
  }

  predicate Inv(s: State) {
    GoodObject(s) && forall c :: c in s.clients ==> GoodClient(s, s.clients[c])
  }

  /** Snapshots stay good while the object is unchanged, newer than everything read, or gone. */
  lemma ClientKept(s: State, s': State, client: Client)
    requires GoodClient(s, client) && s.clock <= s'.clock
    requires s'.stored == s.stored || s'.stored.None? || s'.stored.value.version > s.clock
    ensures GoodClient(s', client)
  {}

  /** The change a step makes to the object, as an event of its history. */
  function EventOf(s: State, step: Step): Event
    requires Enabled(s, step)
  {
    match step
    case CommitPatch(c) => Write(s.clients[c].request)
    case CommitFinalizer(_) => AddFinalizer
    case CommitDelete(_) => BeginDeletion
    case CommitRemoval(_) => RemoveFinalizer
    case ForeignWrite(delete) => if delete then BeginDeletion else Foreign
    case _ => Foreign
  }

  /**
   * Although each patch is computed from a snapshot, every step acts on the object exactly as if its
   * client had read, decided and written at once.
   */
  lemma StepIsAtomic(s: State, step: Step)
    requires Inv(s) && Enabled(s, step) && s.stored.Some? && Apply(s, step).stored.Some?
    ensures Apply(s, step).stored.value.uid == s.stored.value.uid
    ensures Apply(s, step).stored.value.body == After(s.stored.value.body, EventOf(s, step))
    ensures step.CommitPatch? ==> Effective(s.stored.value.body, EventOf(s, step))
  {
    if step.CommitPatch? || step.CommitFinalizer? || step.CommitDelete? || step.CommitRemoval? {
      assert GoodClient(s, s.clients[step.client]);
    }
  }

  lemma ObjectKept(s: State, step: Step)
    requires Inv(s) && Enabled(s, step)
    ensures GoodObject(Apply(s, step))
  {
    if step.CommitDelete? {
      assert GoodClient(s, s.clients[step.client]);
    } else if step.CommitPatch? {
      assert GoodClient(s, s.clients[step.client]);
      if s.stored.value.uid in s.gated { DeletingTakesNoLease(s.stored.value.body, s.clients[step.client].request); }
    }
  }

  /** The step leaves its client holding something. */
  predicate Registers(step: Step) {
    step.ReadForPatch? || step.PassGate? || step.SendFinalizer? || step.CommitFinalizer? || step.SendDelete?
    || step.CommitDelete? || step.ReadForRemoval?
  }

  lemma NewClientGood(s: State, step: Step)
    requires Inv(s) && Enabled(s, step) && Registers(step)
    ensures step.client in Apply(s, step).clients && GoodClient(Apply(s, step), Apply(s, step).clients[step.client])
  {
    if step.client in s.clients { assert GoodClient(s, s.clients[step.client]); }
  }

  lemma OtherClientsSame(s: State, step: Step, c: nat)
    requires Enabled(s, step) && c in Apply(s, step).clients
    ensures (Registers(step) && c == step.client) || (c in s.clients && Apply(s, step).clients[c] == s.clients[c])
    ensures var s' := Apply(s, step);
            s.clock <= s'.clock && (s'.stored == s.stored || s'.stored.None? || s'.stored.value.version > s.clock)
  {}

  lemma StepInv(s: State, step: Step)
    requires Inv(s) && Enabled(s, step)
    ensures Inv(Apply(s, step))
  {
    var s' := Apply(s, step);
    ObjectKept(s, step);
    forall c | c in s'.clients ensures GoodClient(s', s'.clients[c]) {
      OtherClientsSame(s, step, c);
      if Registers(step) && c == step.client {
        NewClientGood(s, step);
      } else {
        ClientKept(s, s', s.clients[c]);
      }
    }
  }

  lemma {:induction false} RunInv(run: seq<State>, i: nat)
    requires IsRun(run) && i < |run|
    ensures Inv(run[i])
  {
    if i > 0 {
      RunInv(run, i - 1);
      assert NextAt(run, i - 1);
      var step :| Enabled(run[i - 1], step) && run[i] == Apply(run[i - 1], step);
      StepInv(run[i - 1], step);
    }
  }

  // ---------------------------------------------------------------- the theorems

  /** Over runs: as the API server gives out no uid twice, an object seen under a known uid was there all along. */
  lemma {:induction false} UidsAreSpent(run: seq<State>, i: nat, j: nat)
    requires IsRun(run) && i <= j < |run|
    ensures run[i].uids <= run[j].uids && run[i].gated <= run[j].gated
    ensures run[j].stored.Some? && run[j].stored.value.uid in run[i].uids ==>
              run[i].stored.Some? && run[i].stored.value.uid == run[j].stored.value.uid
  {
    if i < j {
      UidsAreSpent(run, i, j - 1);
      assert NextAt(run, j - 1);
      var step :| Enabled(run[j - 1], step) && run[j] == Apply(run[j - 1], step);
    }
  }

  /** The annotations a DELETE removes are the ones its gate approved: no lease, and the caller's predicate holds. */
  lemma DeleteMeetsItsGate(run: seq<State>, i: nat, c: nat)
    requires IsRun(run) && i < |run| && Enabled(run[i], CommitDelete(c))
    ensures var o := run[i].stored.value;
            && NoLeases(o.body.notes) && run[i].clients[c].allowed(o.body.notes)
            && o.body.notes == run[i].clients[c].checked && o.body.finalizer
  {
    RunInv(run, i);
    assert GoodClient(run[i], run[i].clients[c]);
  }

  /** From a gated DELETE on, the object carries no lease for as long as it exists, and stays in deletion. */
  lemma DeletedCarriesNoLease(run: seq<State>, i: nat, j: nat)
    requires IsRun(run) && i <= j < |run| && run[j].stored.Some? && run[j].stored.value.uid in run[i].gated
    ensures run[j].stored.value.body.deleting && NoLeases(run[j].stored.value.body.notes)
  {
    UidsAreSpent(run, i, j);
    RunInv(run, j);
  }

  /** The gate predicate admits only objects whose deletion generation is g. */
  ghost predicate FencedBy(allowed: Notes -> bool, g: string) {
    forall notes :: allowed(notes) ==> Get(notes, DeletionGeneration) == Some(Token(g))
  }

  /** A DELETE fenced by deletion generation g removes an object whose generation is g. */
  lemma GenerationFencesDelete(run: seq<State>, i: nat, c: nat, g: string)
    requires IsRun(run) && i < |run| && Enabled(run[i], CommitDelete(c))
    requires FencedBy(run[i].clients[c].allowed, g)
    ensures Get(run[i].stored.value.body.notes, DeletionGeneration) == Some(Token(g))
  {
    DeleteMeetsItsGate(run, i, c);
  }

  /** The client holds, or is taking off, the finalizer of this uid. */
  predicate Holds(client: Client, uid: Uid) {
    (client.Reclaiming? && client.owned == uid) || (client.RemovingFinalizer? && client.read.uid == uid)
  }

  /** One deleter at a time: from state i to state j client c reclaims the network of uid and nobody else does. */
  ghost predicate SoleDeleter(run: seq<State>, i: nat, j: nat, c: nat, uid: Uid) {
    forall n :: i <= n <= j && n < |run| ==> SoleDeleterIn(run[n], c, uid)
  }

  predicate SoleDeleterIn(s: State, c: nat, uid: Uid) {
    && c in s.clients && Holds(s.clients[c], uid)
    && forall d :: d in s.clients && d != c ==> !s.clients[d].RemovingFinalizer?
  }

  predicate HeldBy(s: State, uid: Uid) {
    s.stored.Some? && s.stored.value.uid == uid && s.stored.value.body.finalizer && s.stored.value.body.deleting
  }

  lemma HolderStep(s: State, step: Step, c: nat, uid: Uid)
    requires Enabled(s, step) && HeldBy(s, uid) && SoleDeleterIn(s, c, uid) && SoleDeleterIn(Apply(s, step), c, uid)
    ensures HeldBy(Apply(s, step), uid)
  {}

  /**
   * While one deleter reclaims by name what belonged to a deleted sandbox, from its DELETE until its
   * finalizer patch commits, the name stays with the old uid: nothing it reclaims can belong to a new
   * incarnation.
   */
  lemma {:induction false} ReclaimHoldsName(run: seq<State>, i: nat, j: nat, c: nat)
    requires IsRun(run) && i + 1 <= j < |run|
    requires Enabled(run[i], CommitDelete(c)) && run[i + 1] == Apply(run[i], CommitDelete(c))
    requires SoleDeleter(run, i + 1, j, c, run[i].clients[c].uid)
    ensures HeldBy(run[j], run[i].clients[c].uid)
  {
    var uid := run[i].clients[c].uid;
    if j == i + 1 {
      DeleteMeetsItsGate(run, i, c);
    } else {
      ReclaimHoldsName(run, i, j - 1, c);
      assert NextAt(run, j - 1);
      var step :| Enabled(run[j - 1], step) && run[j] == Apply(run[j - 1], step);
      assert SoleDeleterIn(run[j - 1], c, uid) && SoleDeleterIn(run[j], c, uid);
      HolderStep(run[j - 1], step, c, uid);
    }
  }

  /** The event is what the step from state n made of the object. */
  ghost predicate Explains(run: seq<State>, n: nat, e: Event) {
    n + 1 < |run| && exists step :: Enabled(run[n], step) && run[n + 1] == Apply(run[n], step) && e == EventOf(run[n], step)
  }

  /** The events are those of the run's own steps, one per step, and replaying them gives the later object. */
  ghost predicate Serial(run: seq<State>, i: nat, j: nat, events: seq<Event>)
    requires i <= j < |run| && run[i].stored.Some? && run[j].stored.Some?
  {
    && |events| == j - i && (forall k :: 0 <= k < |events| ==> Explains(run, i + k, events[k]))
    && run[j].stored.value.body == Replay(run[i].stored.value.body, events)
  }

  /**
   * Every interleaving is serial: as long as one uid exists, the object is what some sequence of
   * events, each acting on the object itself, makes of it.
   */
  lemma {:induction false} RunsAreSerial(run: seq<State>, i: nat, j: nat) returns (events: seq<Event>)
    requires IsRun(run) && i <= j < |run| && run[i].stored.Some? && run[j].stored.Some?
    requires run[i].stored.value.uid == run[j].stored.value.uid
    ensures Serial(run, i, j, events)
  {
    if i == j {
      events := [];
    } else {
      RunInv(run, i);
      RunInv(run, j - 1);
      UidsAreSpent(run, i, j - 1);
      assert NextAt(run, j - 1);
      var step :| Enabled(run[j - 1], step) && run[j] == Apply(run[j - 1], step);
      StillThere(run[j - 1], step, run[i].stored.value.uid);
      var earlier := RunsAreSerial(run, i, j - 1);
      StepIsAtomic(run[j - 1], step);
      events := earlier + [EventOf(run[j - 1], step)];
      assert events[..|events| - 1] == earlier;
    }
  }

  lemma StillThere(s: State, step: Step, uid: Uid)
    requires Enabled(s, step) && uid in s.uids && Apply(s, step).stored.Some? && Apply(s, step).stored.value.uid == uid
    ensures s.stored.Some? && s.stored.value.uid == uid
  {}

  // ---------------------------------------------------------------- histories over concurrent runs

  /** Every change of the object from state i to state j is of the given kind. */
  ghost predicate OnlyEvents(run: seq<State>, i: nat, j: nat, kind: Event -> bool) {
    forall n, e :: i <= n < j && Explains(run, n, e) ==> kind(e)
  }

  lemma CommitActsOnObject(run: seq<State>, i: nat, c: nat)
    requires IsRun(run) && i < |run| && Enabled(run[i], CommitPatch(c))
    ensures var s, s' := run[i], Apply(run[i], CommitPatch(c));
            && s'.stored.Some? && s'.stored.value.uid == s.stored.value.uid
            && s'.stored.value.body == After(s.stored.value.body, Write(s.clients[c].request))
            && Effective(s.stored.value.body, Write(s.clients[c].request))
  {
    RunInv(run, i);
    StepIsAtomic(run[i], CommitPatch(c));
  }

  /** A completion whose commit went unacknowledged can be repeated while other clients renew, touch and complete. */
  lemma CompletionRetryOverRuns(run: seq<State>, i: nat, j: nat, c: nat, invocation: string, completedAt: int)
    requires IsRun(run) && i + 1 <= j < |run|
    requires Enabled(run[i], CommitPatch(c)) && run[i + 1] == Apply(run[i], CommitPatch(c))
    requires run[i].clients[c].request == Complete(invocation, completedAt)
    requires var notes := run[i].stored.value.body.notes; LastActive in notes ==> notes[LastActive].Moment?
    requires run[j].stored.Some? && run[j].stored.value.uid == run[i].stored.value.uid
    requires OnlyEvents(run, i + 1, j, LeaseTouchOrCompletion)
    ensures Respond(run[j].stored.value.body, Complete(invocation, completedAt)) != Refused
  {
    CommitActsOnObject(run, i, c);
    var events := RunsAreSerial(run, i + 1, j);
    forall k | 0 <= k < |events| ensures LeaseTouchOrCompletion(events[k]) { assert Explains(run, i + 1 + k, events[k]); }
    CompletionRetrySucceeds(run[i].stored.value.body, invocation, completedAt, events);
  }

  /** With fenced terminal updates, in every interleaving a terminal marker belongs to the current activity. */
  lemma MarkerOverRuns(run: seq<State>, i: nat, j: nat) returns (events: seq<Event>)
    requires IsRun(run) && i <= j < |run| && run[i].stored.Some? && run[j].stored.Some?
    requires run[i].stored.value.uid == run[j].stored.value.uid && TerminalAt !in run[i].stored.value.body.notes
    requires OnlyEvents(run, i, j, Fenced)
    ensures Serial(run, i, j, events)
    ensures TerminalAt in run[j].stored.value.body.notes ==>
              MarkedFor(run[i].stored.value.body, events) == Some(Generation(run[j].stored.value.body))
  {
    events := RunsAreSerial(run, i, j);
    forall k | 0 <= k < |events| ensures Fenced(events[k]) { assert Explains(run, i + k, events[k]); }
    MarkerNamesCurrentActivity(run[i].stored.value.body, events);
  }

  /** With labelled writers, in every interleaving a fenced clear removes a deadline only for the writer who last raised it. */
  lemma FencedClearOverRuns(run: seq<State>, i: nat, j: nat, g: string) returns (events: seq<Event>)
    requires IsRun(run) && i <= j < |run| && run[i].stored.Some? && run[j].stored.Some?
    requires run[i].stored.value.uid == run[j].stored.value.uid
    requires var notes := run[i].stored.value.body.notes; ProtectedUntil !in notes && ProtectionGeneration !in notes
    requires OnlyEvents(run, i, j, Labelled)
    ensures Serial(run, i, j, events)
    ensures var b := run[j].stored.value.body;
            ProtectedUntil in b.notes ==>
              (ProtectedUntil !in After(b, Write(Unprotect(Some(Some(g))))).notes
               <==> LastRaiser(run[i].stored.value.body, events) == Some(Token(g)))
  {
    events := RunsAreSerial(run, i, j);
    forall k | 0 <= k < |events| ensures Labelled(events[k]) { assert Explains(run, i + k, events[k]); }
    FencedClearIsOwn(run[i].stored.value.body, events, g);
  }

  /** Labelled or not, in every interleaving: when a fenced clear can be trusted to be its last strict raiser's. */
  lemma FenceSafeOverRuns(run: seq<State>, i: nat, j: nat) returns (events: seq<Event>)
    requires IsRun(run) && i <= j < |run| && run[i].stored.Some? && run[j].stored.Some?
    requires run[i].stored.value.uid == run[j].stored.value.uid
    requires var notes := run[i].stored.value.body.notes; ProtectedUntil !in notes && ProtectionGeneration !in notes
    requires ProtectedUntil in run[j].stored.value.body.notes
    ensures Serial(run, i, j, events)
    ensures var raiser := LastRaiser(run[i].stored.value.body, events);
            (forall g :: FencedClearRemoves(run[j].stored.value.body, g) ==> raiser == Some(Token(g)))
            <==> raiser.Some? || ProtectionGeneration !in run[j].stored.value.body.notes
  {
    events := RunsAreSerial(run, i, j);
    FenceSafeIff(run[i].stored.value.body, events);
  }

  /** In every interleaving, an update for an activity that was replaced and is not started again takes no effect. */
  lemma LateUpdateOverRuns(run: seq<State>, i: nat, j: nat, u: TerminalUpdate)
    requires IsRun(run) && i <= j < |run| && run[i].stored.Some? && run[j].stored.Some?
    requires run[i].stored.value.uid == run[j].stored.value.uid && u.expected.Some?
    requires Generation(run[i].stored.value.body) != AsToken(u.expected.value)
    requires forall n, e :: i <= n < j && Explains(run, n, e) ==> Spares(e, AsToken(u.expected.value))
    ensures !Respond(run[j].stored.value.body, Terminate(u)).Patch?
    ensures forall c :: c in run[j].clients && Enabled(run[j], CommitPatch(c)) ==> run[j].clients[c].request != Terminate(u)
  {
    var events := RunsAreSerial(run, i, j);
    forall k | 0 <= k < |events| ensures Spares(events[k], AsToken(u.expected.value)) { assert Explains(run, i + k, events[k]); }
    LateUpdateIgnored(run[i].stored.value.body, events, u);
    forall c | c in run[j].clients && Enabled(run[j], CommitPatch(c)) ensures run[j].clients[c].request != Terminate(u) {
      CommitActsOnObject(run, j, c);
    }
  }

  /** In every interleaving, two terminal updates of one activity that both commit carry strictly increasing times. */
  lemma TerminalTimesOverRuns(run: seq<State>, i: nat, j: nat, c: nat, d: nat, u: TerminalUpdate, v: TerminalUpdate)
    requires IsRun(run) && i + 1 <= j < |run|
    requires Enabled(run[i], CommitPatch(c)) && run[i].clients[c].request == Terminate(u) && run[i + 1] == Apply(run[i], CommitPatch(c))
    requires Enabled(run[j], CommitPatch(d)) && run[j].clients[d].request == Terminate(v)
    requires run[j].stored.value.uid == run[i].stored.value.uid && u.expected.Some? && v.expected == u.expected
    requires forall n, e :: i + 1 <= n < j && Explains(run, n, e) ==> Spares(e, AsToken(u.expected.value))
    ensures u.at < v.at
  {
    CommitActsOnObject(run, i, c);
    CommitActsOnObject(run, j, d);
    var events := RunsAreSerial(run, i + 1, j);
    forall k | 0 <= k < |events| ensures Spares(events[k], AsToken(u.expected.value)) { assert Explains(run, i + 1 + k, events[k]); }
    TimesIncreaseAcross(run[i].stored.value.body, events, u, v);
  }

  /** In every interleaving, a deletion claim the chain has left and nobody renews deletes nothing. */
  lemma LapsedClaimOverRuns(run: seq<State>, i: nat, j: nat, c: nat, g: string)
    requires IsRun(run) && i <= j < |run| && run[i].stored.Some? && run[j].stored.Some?
    requires run[i].stored.value.uid == run[j].stored.value.uid && ChainOf(run[i].stored.value.body) != Some(Token(g))
    requires forall n, e :: i <= n < j && Explains(run, n, e) ==> !AdvancesTo(e, g)
    requires c in run[j].clients && run[j].clients[c].SendingDelete? && FencedBy(run[j].clients[c].allowed, g)
    ensures !Enabled(run[j], CommitDelete(c))
  {
    var events := RunsAreSerial(run, i, j);
    forall k | 0 <= k < |events| ensures !AdvancesTo(events[k], g) { assert Explains(run, i + k, events[k]); }
    ClaimLapses(run[i].stored.value.body, events, g);
    if Enabled(run[j], CommitDelete(c)) { GenerationFencesDelete(run, j, c, g); }
  }

  /** In every interleaving, until it is removed a lease only grows, and a recorded completion survives every heartbeat. */
  lemma LeaseGrowsOverRuns(run: seq<State>, i: nat, j: nat, invocation: string)
    requires IsRun(run) && i <= j < |run| && run[i].stored.Some? && run[j].stored.Some?
    requires run[i].stored.value.uid == run[j].stored.value.uid
    requires var notes := run[i].stored.value.body.notes; LeaseOf(invocation) in notes && WellFormedLease(notes[LeaseOf(invocation)])
    requires forall n, e :: i <= n < j && Explains(run, n, e) ==> !RemovesLease(e, invocation)
    ensures LeaseOf(invocation) in run[j].stored.value.body.notes
    ensures LeaseAtMost(run[i].stored.value.body.notes[LeaseOf(invocation)], run[j].stored.value.body.notes[LeaseOf(invocation)])
    ensures var v, v' := run[i].stored.value.body.notes[LeaseOf(invocation)], run[j].stored.value.body.notes[LeaseOf(invocation)];
            v.state == Some(CompletionPending) && v.completedAt.Some?
            && (forall n, e :: i <= n < j && Explains(run, n, e) ==> StaleFor(e, invocation)) ==>
              v'.state == v.state && v'.completedAt == v.completedAt
  {
    var events := RunsAreSerial(run, i, j);
    forall k | 0 <= k < |events| ensures !RemovesLease(events[k], invocation) { assert Explains(run, i + k, events[k]); }
    if forall n, e :: i <= n < j && Explains(run, n, e) ==> StaleFor(e, invocation) {
      forall k | 0 <= k < |events| ensures StaleFor(events[k], invocation) { assert Explains(run, i + k, events[k]); }
    }
    LeaseOnlyGrows(run[i].stored.value.body, events, invocation);
  }

  /** In every interleaving, a lease is changed only by commits that name its invocation. */
  lemma LeasePrivateOverRuns(run: seq<State>, i: nat, j: nat, invocation: string)
    requires IsRun(run) && i <= j < |run| && run[i].stored.Some? && run[j].stored.Some?
    requires run[i].stored.value.uid == run[j].stored.value.uid
    requires forall n, e :: i <= n < j && Explains(run, n, e) ==> !Concerns(e, invocation)
    ensures Get(run[j].stored.value.body.notes, LeaseOf(invocation)) == Get(run[i].stored.value.body.notes, LeaseOf(invocation))
  {
    var events := RunsAreSerial(run, i, j);
    forall k | 0 <= k < |events| ensures !Concerns(events[k], invocation) { assert Explains(run, i + k, events[k]); }
    LeaseIsPrivate(run[i].stored.value.body, events, invocation);
  }

  /** In every interleaving, the terminal markers are those of one update of the run, or all absent. */
  lemma OneUpdateOverRuns(run: seq<State>, i: nat, j: nat) returns (events: seq<Event>)
    requires IsRun(run) && i <= j < |run| && run[i].stored.Some? && run[j].stored.Some?
    requires run[i].stored.value.uid == run[j].stored.value.uid && CarriesUpdate(run[i].stored.value.body.notes, None)
    ensures Serial(run, i, j, events)
    ensures CarriesUpdate(run[j].stored.value.body.notes, NewestUpdate(run[i].stored.value.body, events))
  {
    events := RunsAreSerial(run, i, j);
    MarkersAreOneUpdate(run[i].stored.value.body, events);
  }

  /** In every interleaving, a known workload class stays for as long as the object exists. */
  lemma WorkloadOverRuns(run: seq<State>, i: nat, j: nat)
    requires IsRun(run) && i <= j < |run| && run[i].stored.Some? && run[j].stored.Some?
    requires run[i].stored.value.uid == run[j].stored.value.uid
    requires KnownWorkload(Get(run[i].stored.value.body.notes, WorkloadDescriptor))
    ensures Get(run[j].stored.value.body.notes, WorkloadDescriptor) == Get(run[i].stored.value.body.notes, WorkloadDescriptor)
  {
    var events := RunsAreSerial(run, i, j);
    KnownWorkloadStays(run[i].stored.value.body, events);
  }

  /** In every interleaving, one step moves the deletion generation only by an advance from the token it stands at. */
  lemma GenerationOverRuns(run: seq<State>, i: nat) returns (e: Event)
    requires IsRun(run) && i + 1 < |run| && run[i].stored.Some? && run[i + 1].stored.Some?
    requires run[i].stored.value.uid == run[i + 1].stored.value.uid
    ensures Explains(run, i, e)
    ensures var current := ChainOf(run[i].stored.value.body);
            ChainOf(run[i + 1].stored.value.body) == if Continues(e, current) then Some(Token(e.request.next)) else current
  {
    RunInv(run, i);
    assert NextAt(run, i);
    var step :| Enabled(run[i], step) && run[i + 1] == Apply(run[i], step);
    StepIsAtomic(run[i], step);
    e := EventOf(run[i], step);
    ChainStep(run[i].stored.value.body, e);
  }

  /** In every interleaving without a clear, the protection deadline does not fall. */
  lemma DeadlineOverRuns(run: seq<State>, i: nat, j: nat)
    requires IsRun(run) && i <= j < |run| && run[i].stored.Some? && run[j].stored.Some?
    requires run[i].stored.value.uid == run[j].stored.value.uid && MomentProtection(run[i].stored.value.body)
    requires forall n, e :: i <= n < j && Explains(run, n, e) ==> !(e.Write? && e.request.Unprotect?)
    ensures MomentProtection(run[j].stored.value.body)
    ensures var notes, notes' := run[i].stored.value.body.notes, run[j].stored.value.body.notes;
            ProtectedUntil in notes ==> ProtectedUntil in notes' && notes'[ProtectedUntil].ms >= notes[ProtectedUntil].ms
  {
    var events := RunsAreSerial(run, i, j);
    forall k | 0 <= k < |events| ensures !(events[k].Write? && events[k].request.Unprotect?) { assert Explains(run, i + k, events[k]); }
    DeadlineOnlyRises(run[i].stored.value.body, events);
  }
}
