/**
 * The annotations of one sandbox object and what each fenced write makes of them
 * (sandboxLifecycleMutations.ts, sandboxLifecycleUpdater.ts, sandboxDeletionGeneration.ts, sandboxMutationGate.ts).
 */
module SandboxResource {
  import opened Text

  datatype LeaseState = Executing | BackgroundPending | CompletionPending | OtherState

  datatype Key =
    | LeaseOf(invocation: string)
    | LastActive
    | ActivityGeneration
    | TerminalState | TerminalAt | TerminalOutcome | RetentionDeadline
    | DeletionGeneration
    | ProtectedUntil | ProtectionGeneration
    | WorkloadDescriptor

  /** An annotation value as its readers parse it: a date, a lease document, a descriptor, or opaque text. */
  datatype Value =
    | Moment(ms: int)
    | Lease(until: Option<int>, state: Option<LeaseState>, completedAt: Option<int>)
    | Workload(known: bool, description: string)
    | Token(text: string)

  type Notes = map<Key, Value>

  /** An object's state apart from its uid and resourceVersion. */
  datatype Body = Body(deleting: bool, finalizer: bool, notes: Notes)

  function Get(notes: Notes, key: Key): Option<Value> {
    if key in notes then Some(notes[key]) else None
  }

  // ---------------------------------------------------------------- merging

  function Rank(state: Option<LeaseState>): nat {
    if state == Some(CompletionPending) then 3 else if state == Some(BackgroundPending) then 2 else 1
  }

  /** mergeInvocationLease: a value that is not a lease document is replaced. */
  function MergeLease(current: Option<Value>, requested: Value): Value {
    if current.None? || !current.value.Lease? || !requested.Lease? then requested
    else
      var existing := current.value;
      var until :=
        if existing.until.Some? && requested.until.Some? && existing.until.value > requested.until.value
        then existing.until else requested.until;
      var source := if Rank(existing.state) > Rank(requested.state) then existing else requested;
      Lease(until,
            if source.state.Some? then source.state else Some(Executing),
            if source.completedAt.Some? then source.completedAt else requested.completedAt)
  }

  function ProtectionMs(v: Option<Value>): Option<int> {
    match v
    case Some(Moment(ms)) => Some(ms)
    case Some(Lease(until, _, _)) => until
    case _ => None
  }

  function LaterProtection(current: Option<Value>, requested: Value): Value {
    var a, b := ProtectionMs(current), ProtectionMs(Some(requested));
    if a.Some? && b.Some? && a.value > b.value then current.value else requested
  }

  // ---------------------------------------------------------------- one attempt of a write

  /** What a client does after one read: give up, find nothing to do, or send a patch with these annotations. */
  datatype Reply = Refused | Unchanged | Patch(notes: Notes)

  datatype Merge = Replace | Latest | LeaseMerge

  /** `updates` holds None for a key to be removed. */
  datatype Options = Options(
    merge: Merge, expectedClear: Option<(Key, Option<Value>)>, updates: map<Key, Option<Value>>, link: bool)

  function Desired(current: Option<Value>, value: Option<Value>, merge: Merge): Option<Value> {
    if value.None? then None
    else match merge
      case Replace => value
      case Latest => Some(LaterProtection(current, value.value))
      case LeaseMerge => Some(MergeLease(current, value.value))
  }

  /** Whether the linked update of key `k` takes part in the patch. */
  predicate Changes(notes: Notes, key: Key, value: Option<Value>, options: Options, k: Key)
    requires k in options.updates
  {
    var current := Get(notes, key);
    && !(options.link && value.Some? && Desired(current, value, options.merge) == current && (current != value || k in notes))
    && Get(notes, k) != options.updates[k]
  }

  /** The value of key `k` after the patch. */
  function Patched(notes: Notes, key: Key, value: Option<Value>, options: Options, k: Key): Option<Value> {
    if k in options.updates && Changes(notes, key, value, options, k) then options.updates[k]
    else if k == key then Desired(Get(notes, key), value, options.merge)
    else Get(notes, k)
  }

  function PatchedNotes(notes: Notes, key: Key, value: Option<Value>, options: Options): (r: Notes)
    ensures forall k :: Get(r, k) == Patched(notes, key, value, options, k)
  {
    map k | k in notes.Keys + {key} + options.updates.Keys && Patched(notes, key, value, options, k).Some?
      :: Patched(notes, key, value, options, k).value
  }

  /** applyProtectedAnnotation, from one read to its patch. */
  function ProtectedAnnotation(b: Body, key: Key, value: Option<Value>, options: Options): Reply {
    if value.Some? && b.deleting then Refused
    else if value.None? && options.expectedClear.Some? && Get(b.notes, options.expectedClear.value.0) != options.expectedClear.value.1
      then Unchanged
    else if Desired(Get(b.notes, key), value, options.merge) == Get(b.notes, key)
            && (forall k :: k in options.updates ==> !Changes(b.notes, key, value, options, k))
      then Unchanged
    else Patch(PatchedNotes(b.notes, key, value, options))
  }

  const TERMINAL_KEYS := {TerminalState, TerminalAt, TerminalOutcome, RetentionDeadline}

  /** A caller that names a generation starts new activity: the terminal markers go with it. */
  function ActivityUpdates(generation: Option<string>): map<Key, Option<Value>> {
    if generation.None? then map[]
    else map[ActivityGeneration := Some(Token(generation.value)),
             TerminalState := None, TerminalAt := None, TerminalOutcome := None, RetentionDeadline := None]
  }

  datatype TerminalUpdate = TerminalUpdate(
    state: string, at: int, outcome: Option<string>, retention: Option<int>, expected: Option<Option<string>>)

  /** Every annotation write of the orchestrator. */
  datatype Request =
    | RenewLease(invocation: string, until: int, generation: Option<string>, state: LeaseState, completed: Option<int>)
    | ClearLease(invocation: string)
    | Complete(invocation: string, completedAt: int)
    | Touch(now: int)
    | Protect(until: int, generation: Option<string>)
    | Unprotect(fence: Option<Option<string>>)
    | Admit(ensured: string, at: int, workload: Value)
    | Terminate(update: TerminalUpdate)
    | Advance(next: string, previous: Option<string>)

  function AsToken(text: Option<string>): Option<Value> {
    if text.None? then None else Some(Token(text.value))
  }

  /** completeInvocationLease: without a lease only an already recorded completion counts as done. */
  function CompleteReply(b: Body, invocation: string, completedAt: int): Reply {
    var activity := Get(b.notes, LastActive);
    if b.deleting then Refused
    else if LeaseOf(invocation) !in b.notes then
      if activity.Some? && activity.value.Moment? && activity.value.ms >= completedAt then Unchanged else Refused
    else Patch((b.notes - {LeaseOf(invocation)})[LastActive := LaterProtection(activity, Moment(completedAt))])
  }

  /** applyWorkloadDescriptor: a known workload class is kept, the activity generation is replaced. */
  function AdmitReply(b: Body, generation: string, at: int, workload: Value): Reply {
    if b.deleting then Refused
    else
      var existing := Get(b.notes, WorkloadDescriptor);
      var admitted := if existing.Some? && existing.value.Workload? && existing.value.known then existing.value else workload;
      Patch((b.notes - TERMINAL_KEYS)[WorkloadDescriptor := admitted][LastActive := Moment(at)][ActivityGeneration := Token(generation)])
  }

  function Optional(notes: Notes, key: Key, value: Option<Value>): Notes {
    if value.Some? then notes[key := value.value] else notes - {key}
  }

  predicate AtLeast(v: Option<Value>, ms: int) {
    v.Some? && v.value.Moment? && v.value.ms >= ms
  }

  /** updateSandboxLifecycle with the patch of applyLifecycleUpdate. */
  function TerminateReply(b: Body, u: TerminalUpdate): Reply {
    if b.deleting then Refused
    else if || (u.expected.Some? && AsToken(u.expected.value) != Get(b.notes, ActivityGeneration))
            || (u.expected.None? && AtLeast(Get(b.notes, LastActive), u.at))
            || AtLeast(Get(b.notes, TerminalAt), u.at)
      then Unchanged
    else
      var marked := b.notes[TerminalState := Token(u.state)][TerminalAt := Moment(u.at)];
      Patch(Optional(Optional(marked, TerminalOutcome, AsToken(u.outcome)),
                     RetentionDeadline, if u.retention.Some? then Some(Moment(u.retention.value)) else None))
  }

  /** advance: a persisted chain moves only from its previous token to the next one. */
  function AdvanceReply(b: Body, next: string, previous: Option<string>): Reply {
    var current := Get(b.notes, DeletionGeneration);
    if current == Some(Token(next)) then Unchanged
    else if current.Some? && current != AsToken(previous) then Refused
    else Patch(b.notes[DeletionGeneration := Token(next)])
  }

  function Respond(b: Body, r: Request): Reply {
    match r
    case RenewLease(invocation, until, generation, state, completed) =>
      ProtectedAnnotation(b, LeaseOf(invocation), Some(Lease(Some(until), Some(state), completed)),
                          Options(LeaseMerge, None, ActivityUpdates(generation), false))
    case ClearLease(invocation) =>
      ProtectedAnnotation(b, LeaseOf(invocation), None, Options(LeaseMerge, None, map[], false))
    case Complete(invocation, completedAt) => CompleteReply(b, invocation, completedAt)
    case Touch(now) => ProtectedAnnotation(b, LastActive, Some(Moment(now)), Options(Latest, None, map[], false))
    case Protect(until, generation) =>
      ProtectedAnnotation(b, ProtectedUntil, Some(Moment(until)),
                          Options(Latest, None, if generation.Some? then map[ProtectionGeneration := AsToken(generation)] else map[], true))
    case Unprotect(fence) =>
      ProtectedAnnotation(b, ProtectedUntil, None,
                          Options(Latest, if fence.Some? then Some((ProtectionGeneration, AsToken(fence.value))) else None,
                                  map[ProtectionGeneration := None], true))
    case Admit(ensured, at, workload) => AdmitReply(b, ensured, at, workload)
    case Terminate(u) => TerminateReply(b, u)
    case Advance(next, previous) => AdvanceReply(b, next, previous)
  }

  // ---------------------------------------------------------------- the destructive gate

  predicate NoLeases(notes: Notes) {
    forall k :: k in notes ==> !k.LeaseOf?
  }

  predicate Unprotected(notes: Notes, now: int) {
    !(ProtectedUntil in notes && notes[ProtectedUntil].Moment? && notes[ProtectedUntil].ms > now)
  }

  /** readSandboxMutationGate on the object read; any lease, expired or malformed, closes it. */
  predicate GateOpen(notes: Notes, now: int, allowed: Notes -> bool) {
    NoLeases(notes) && Unprotected(notes, now) && allowed(notes)
  }

  /** Nothing on the object protects it at this time: no lease of any kind and no later protection deadline. */
  predicate NothingProtects(notes: Notes, now: int) {
    && (forall k :: k in notes ==> !k.LeaseOf?)
    && (ProtectedUntil in notes && notes[ProtectedUntil].Moment? ==> notes[ProtectedUntil].ms <= now)
  }

  /** The gate opens exactly when nothing protects the object and the caller's own predicate holds of it. */
  lemma GateDecides(notes: Notes, now: int, allowed: Notes -> bool)
    ensures GateOpen(notes, now, allowed) <==> NothingProtects(notes, now) && allowed(notes)
    ensures NoLeases(notes) && Unprotected(notes, now) <==> NothingProtects(notes, now)
  {}

  // ---------------------------------------------------------------- what single writes do

  /** A completion removes its own lease and records the activity in one patch, touching nothing else. */
  lemma CompletionIsAtomic(b: Body, invocation: string, completedAt: int)
    requires Respond(b, Complete(invocation, completedAt)).Patch?
    requires Get(b.notes, LastActive).Some? ==> b.notes[LastActive].Moment?
    ensures var notes := Respond(b, Complete(invocation, completedAt)).notes;
            && LeaseOf(invocation) in b.notes && LeaseOf(invocation) !in notes
            && LastActive in notes && notes[LastActive].Moment? && notes[LastActive].ms >= completedAt
            && (LastActive in b.notes ==> notes[LastActive].ms >= b.notes[LastActive].ms)
            && forall k :: k != LeaseOf(invocation) && k != LastActive ==> Get(notes, k) == Get(b.notes, k)
  {}

  /** Apart from these keys the two annotation maps agree. */
  ghost predicate SameExcept(a: Notes, b: Notes, keys: set<Key>) {
    forall k :: k !in keys ==> Get(a, k) == Get(b, k)
  }

  /** A terminal update sets all four markers together: what it does not carry is removed, nothing else moves. */
  lemma TerminateSetsMarkers(b: Body, u: TerminalUpdate)
    requires Respond(b, Terminate(u)).Patch?
    ensures var notes := Respond(b, Terminate(u)).notes;
            && SameExcept(notes, b.notes, TERMINAL_KEYS)
            && Get(notes, TerminalState) == Some(Token(u.state)) && Get(notes, TerminalAt) == Some(Moment(u.at))
            && Get(notes, TerminalOutcome) == AsToken(u.outcome)
            && (u.retention.Some? <==> RetentionDeadline in notes)
            && (u.retention.Some? ==> notes[RetentionDeadline] == Moment(u.retention.value))
  {}

  /** Admission starts a new activity: markers go, the generation is new, a known workload class survives. */
  lemma AdmitStartsActivity(b: Body, generation: string, at: int, workload: Value)
    requires !b.deleting
    ensures var reply := Respond(b, Admit(generation, at, workload));
            && reply.Patch?
            && SameExcept(reply.notes, b.notes, TERMINAL_KEYS + {WorkloadDescriptor, LastActive, ActivityGeneration})
            && (forall k :: k in TERMINAL_KEYS ==> k !in reply.notes)
            && Get(reply.notes, ActivityGeneration) == Some(Token(generation)) && Get(reply.notes, LastActive) == Some(Moment(at))
            && (WorkloadDescriptor in b.notes && b.notes[WorkloadDescriptor].Workload? && b.notes[WorkloadDescriptor].known ==>
                  Get(reply.notes, WorkloadDescriptor) == Get(b.notes, WorkloadDescriptor))
  {}

  /** The keys a lease write may change. */
  function RenewKeys(invocation: string, generation: Option<string>): set<Key> {
    {LeaseOf(invocation)} + if generation.Some? then TERMINAL_KEYS + {ActivityGeneration} else {}
  }

  /** What a patched lease write leaves at one key. */
  lemma RenewAt(b: Body, invocation: string, until: int, generation: Option<string>, state: LeaseState, completed: Option<int>, k: Key)
    requires Respond(b, RenewLease(invocation, until, generation, state, completed)).Patch?
    ensures Get(Respond(b, RenewLease(invocation, until, generation, state, completed)).notes, k) ==
            if k == LeaseOf(invocation)
            then Some(MergeLease(Get(b.notes, k), Lease(Some(until), Some(state), completed)))
            else if k !in RenewKeys(invocation, generation) then Get(b.notes, k)
            else if k == ActivityGeneration then AsToken(generation)
            else None
  {}

  /** A lease write touches its lease, and with a generation the activity keys, and nothing else. */
  lemma RenewWrites(b: Body, invocation: string, until: int, generation: Option<string>, state: LeaseState, completed: Option<int>)
    requires Respond(b, RenewLease(invocation, until, generation, state, completed)).Patch?
    ensures var notes := Respond(b, RenewLease(invocation, until, generation, state, completed)).notes;
            && Get(notes, LeaseOf(invocation)) ==
               Some(MergeLease(Get(b.notes, LeaseOf(invocation)), Lease(Some(until), Some(state), completed)))
            && SameExcept(notes, b.notes, RenewKeys(invocation, generation))
            && (generation.Some? ==> Get(notes, ActivityGeneration) == AsToken(generation)
                                     && forall k :: k in TERMINAL_KEYS ==> k !in notes)
  {
    var notes := Respond(b, RenewLease(invocation, until, generation, state, completed)).notes;
    RenewAt(b, invocation, until, generation, state, completed, LeaseOf(invocation));
    RenewAt(b, invocation, until, generation, state, completed, ActivityGeneration);
    forall k | k !in RenewKeys(invocation, generation) ensures Get(notes, k) == Get(b.notes, k) {
      RenewAt(b, invocation, until, generation, state, completed, k);
    }
    forall k | k in TERMINAL_KEYS && generation.Some? ensures k !in notes {
      RenewAt(b, invocation, until, generation, state, completed, k);
      assert Get(notes, k) == None;
    }
  }

  /** A clear removes one lease and nothing else, also while the object is being deleted. */
  lemma ClearRemovesOne(b: Body, invocation: string)
    ensures var reply := Respond(b, ClearLease(invocation));
            if LeaseOf(invocation) in b.notes
            then reply.Patch? && LeaseOf(invocation) !in reply.notes && SameExcept(reply.notes, b.notes, {LeaseOf(invocation)})
            else reply == Unchanged
  {
    var reply := Respond(b, ClearLease(invocation));
    if reply.Patch? { assert Get(reply.notes, LeaseOf(invocation)) == None; }
  }

  /** Once deletion has begun no write adds or renews a lease. */
  lemma DeletingTakesNoLease(b: Body, r: Request)
    requires b.deleting && Respond(b, r).Patch?
    ensures forall k: Key :: k.LeaseOf? && k in Respond(b, r).notes ==> k in b.notes
  {
    forall k: Key | k.LeaseOf? && k in Respond(b, r).notes ensures k in b.notes {
      assert Get(Respond(b, r).notes, k).Some?;
    }
  }

  // ---------------------------------------------------------------- the retry loop around a write

  datatype WriteReply = Applied | Conflict | Failed

  /** One round: the object the read returned and the API server's reply to the patch. */
  datatype Round = Round(status: Option<(string, Body)>, write: WriteReply)

  datatype Result = Done(uid: string) | Precondition | Error

  /** Clears are tried once; so is the generation advance. */
  function Attempts(r: Request): nat {
    if r.ClearLease? || r.Unprotect? || r.Advance? then 1 else 3
  }

  /** The round read the pinned object and lost the race for its version. */
  predicate Raced(r: Request, uid: string, round: Round) {
    round.status.Some? && round.status.value.0 == uid && Respond(round.status.value.1, r).Patch? && round.write == Conflict
  }

  /** Round k ends the loop well for `uid`: nothing to do, or the patch was applied to the object it read. */
  predicate EndsWell(r: Request, uid: string, round: Round) {
    && round.status.Some? && round.status.value.0 == uid
    && var reply := Respond(round.status.value.1, r);
       reply == Unchanged || (reply.Patch? && round.write == Applied)
  }

  predicate SucceedsAt(r: Request, expectedUid: Option<string>, rounds: seq<Round>, uid: string, k: nat)
    requires |rounds| == 3
  {
    && k < (if r.ClearLease? || r.Unprotect? || r.Advance? then 1 else 3)
    && (expectedUid.Some? ==> uid == expectedUid.value)
    && (forall i :: 0 <= i < k ==> Raced(r, uid, rounds[i]))
    && EndsWell(r, uid, rounds[k])
  }

  /** A successful round is the first one that did not lose its race. */
  lemma FirstUnraced(r: Request, expectedUid: Option<string>, rounds: seq<Round>, uid: string, k: nat, other: string, i: nat)
    requires |rounds| == 3 && SucceedsAt(r, expectedUid, rounds, uid, k) && i < 3 && Raced(r, other, rounds[i])
    ensures i != k && (i < k ==> uid == other)
  {
    if i < k { assert Raced(r, uid, rounds[i]); }
  }

  lemma BeforeSuccess(r: Request, expectedUid: Option<string>, rounds: seq<Round>, uid: string, k: nat, i: nat)
    requires |rounds| == 3 && SucceedsAt(r, expectedUid, rounds, uid, k) && i < k
    ensures Raced(r, uid, rounds[i])
  {}

  /** What the loop knows when it is about to try round n: all earlier rounds raced on the uid it follows. */
  predicate Following(r: Request, expectedUid: Option<string>, rounds: seq<Round>, observed: Option<string>, n: nat)
    requires |rounds| == 3
  {
    && n <= 3 && (expectedUid.Some? ==> observed == expectedUid)
    && (if n == 0 then observed == expectedUid else observed.Some?)
    && (observed.Some? ==> forall i :: 0 <= i < n ==> Raced(r, observed.value, rounds[i]))
  }

  lemma FollowsOneUid(
      r: Request, expectedUid: Option<string>, rounds: seq<Round>, observed: Option<string>, n: nat, uid: string, k: nat)
    requires |rounds| == 3 && Following(r, expectedUid, rounds, observed, n) && SucceedsAt(r, expectedUid, rounds, uid, k)
    ensures n <= k && (observed.Some? ==> uid == observed.value)
  {
    if n > 0 {
      FirstUnraced(r, expectedUid, rounds, uid, k, observed.value, 0);
      if k < n { FirstUnraced(r, expectedUid, rounds, uid, k, observed.value, k); }
    }
  }

  /** A round that neither raced nor ended well for the followed uid ends the loop without success. */
  lemma StopsWithout(r: Request, expectedUid: Option<string>, rounds: seq<Round>, observed: Option<string>, n: nat)
    requires |rounds| == 3 && Following(r, expectedUid, rounds, observed, n) && n <= Attempts(r)
    requires n < Attempts(r) ==>
               forall uid :: (observed.Some? ==> uid == observed.value) ==> !Raced(r, uid, rounds[n]) && !EndsWell(r, uid, rounds[n])
    ensures forall uid, k :: !SucceedsAt(r, expectedUid, rounds, uid, k)
  {
    forall uid, k: nat ensures !SucceedsAt(r, expectedUid, rounds, uid, k) {
      if SucceedsAt(r, expectedUid, rounds, uid, k) {
        FollowsOneUid(r, expectedUid, rounds, observed, n, uid, k);
        if n < k { BeforeSuccess(r, expectedUid, rounds, uid, k, n); }
      }
    }
  }

  lemma StopsWith(r: Request, expectedUid: Option<string>, rounds: seq<Round>, observed: Option<string>, n: nat, uid: string)
    requires |rounds| == 3 && Following(r, expectedUid, rounds, observed, n) && n < Attempts(r)
    requires (observed.Some? ==> uid == observed.value) && EndsWell(r, uid, rounds[n])
    ensures SucceedsAt(r, expectedUid, rounds, uid, n)
    ensures forall u, k :: SucceedsAt(r, expectedUid, rounds, u, k) ==> u == uid && k == n
  {
    forall u, k: nat | SucceedsAt(r, expectedUid, rounds, u, k) ensures u == uid && k == n {
      FollowsOneUid(r, expectedUid, rounds, observed, n, u, k);
    }
  }

  /**
   * The read-patch loop the writers share. It follows one uid: it succeeds exactly when some round
   * ends well for a uid on which every earlier round lost a version race.
   */
  method Mutate(r: Request, expectedUid: Option<string>, rounds: seq<Round>) returns (result: Result, last: nat)
    requires |rounds| == 3
    ensures result.Done? ==> SucceedsAt(r, expectedUid, rounds, result.uid, last)
    ensures forall uid, k :: SucceedsAt(r, expectedUid, rounds, uid, k) ==> result == Done(uid) && last == k
    ensures result == Error ==>
              last < 3 && rounds[last].status.Some? && Respond(rounds[last].status.value.1, r).Patch? && rounds[last].write == Failed
  {
    var observed := expectedUid;
    last := 0;
    for attempt := 0 to Attempts(r)
      invariant Following(r, expectedUid, rounds, observed, attempt)
    {
      last := attempt;
      var status := rounds[attempt].status;
      if status.None? || (observed.Some? && observed.value != status.value.0) {
        StopsWithout(r, expectedUid, rounds, observed, attempt);
        return Precondition, attempt;
      }
      var (uid, body) := status.value;
      var reply := Respond(body, r);
      if reply == Unchanged || (reply.Patch? && rounds[attempt].write == Applied) {
        StopsWith(r, expectedUid, rounds, observed, attempt, uid);
        return Done(uid), attempt;
      }
      if reply == Refused || rounds[attempt].write == Failed {
        StopsWithout(r, expectedUid, rounds, observed, attempt);
        return (if reply == Refused then Precondition else Error), attempt;
      }
      observed := Some(uid);
    }
    StopsWithout(r, expectedUid, rounds, observed, Attempts(r));
    result := Precondition;
  }
}
