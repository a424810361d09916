/**
 * Properties of every sequence of writes on one sandbox object, whatever their order
 * (sandboxLifecycleMutations.ts, sandboxLifecycleUpdater.ts).
 */
module SandboxHistory {
  import opened Text
  import opened SandboxResource

  /** What can happen to an object between its creation and its disappearance. */
  datatype Event =
    | Write(request: Request)
    | AddFinalizer
    | RemoveFinalizer
    | BeginDeletion
    | Foreign

  function After(b: Body, e: Event): Body {
    match e
    case Write(r) => var reply := Respond(b, r); if reply.Patch? then b.(notes := reply.notes) else b
    case AddFinalizer => b.(finalizer := true)
    case RemoveFinalizer => b.(finalizer := false)
    case BeginDeletion => b.(deleting := true)
    case Foreign => b
  }

  function Replay(b: Body, events: seq<Event>): Body {
    if events == [] then b else After(Replay(b, events[..|events| - 1]), events[|events| - 1])
  }

  lemma ReplaySnoc(b: Body, events: seq<Event>, e: Event)
    ensures Replay(b, events + [e]) == After(Replay(b, events), e)
  {
    assert (events + [e])[..|events|] == events;
  }

  lemma {:induction false} ReplayAppend(b: Body, first: seq<Event>, second: seq<Event>)
    ensures Replay(b, first + second) == Replay(Replay(b, first), second)
  {
    if second == [] {
      assert first + second == first;
    } else {
      var init, last := second[..|second| - 1], second[|second| - 1];
      ReplayAppend(b, first, init);
      ReplaySnoc(b, first + init, last);
      assert first + second == (first + init) + [last];
    }
  }

  /** The object just before event i. */
  function At(b: Body, events: seq<Event>, i: nat): Body
    requires i <= |events|
  {
    Replay(b, events[..i])
  }

  lemma AtNext(b: Body, events: seq<Event>, i: nat)
    requires i < |events|
    ensures At(b, events, i + 1) == After(At(b, events, i), events[i])
  {
    assert events[..i + 1][..i] == events[..i];
  }

  /** The event is a write that sends a patch. */
  predicate Effective(b: Body, e: Event) {
    e.Write? && Respond(b, e.request).Patch?
  }

  // ---------------------------------------------------------------- leases merge upwards

  predicate WellFormedLease(v: Value) {
    v.Lease? && v.until.Some?
  }

  predicate LeaseAtMost(a: Value, b: Value) {
    WellFormedLease(a) && WellFormedLease(b) && a.until.value <= b.until.value && Rank(a.state) <= Rank(b.state)
  }

  /** The merge is the least upper bound in deadline and rank. */
  lemma MergeIsJoin(current: Value, requested: Value, bound: Value)
    requires WellFormedLease(current) && WellFormedLease(requested)
    ensures var m := MergeLease(Some(current), requested);
            && LeaseAtMost(current, m) && LeaseAtMost(requested, m)
            && (LeaseAtMost(current, bound) && LeaseAtMost(requested, bound) ==> LeaseAtMost(m, bound))
  {}

  function MergeAll(current: Value, requests: seq<Value>): Value {
    if requests == [] then current
    else MergeLease(Some(MergeAll(current, requests[..|requests| - 1])), requests[|requests| - 1])
  }

  predicate AllWellFormed(requests: seq<Value>) {
    forall i :: 0 <= i < |requests| ==> WellFormedLease(requests[i])
  }

  predicate BoundsAll(current: Value, requests: seq<Value>, bound: Value) {
    LeaseAtMost(current, bound) && forall i :: 0 <= i < |requests| ==> LeaseAtMost(requests[i], bound)
  }

  /** After any requests the lease is the least upper bound of all of them in deadline and rank. */
  lemma {:induction false} MergeAllIsJoin(current: Value, requests: seq<Value>)
    requires WellFormedLease(current) && AllWellFormed(requests)
    ensures BoundsAll(current, requests, MergeAll(current, requests))
    ensures forall bound :: BoundsAll(current, requests, bound) ==> LeaseAtMost(MergeAll(current, requests), bound)
  {
    if requests != [] {
      var n := |requests| - 1;
      var rest, last := requests[..n], requests[n];
      var before := MergeAll(current, rest);
      MergeAllIsJoin(current, rest);
      MergeIsJoin(before, last, before);
      forall bound | BoundsAll(current, requests, bound) ensures LeaseAtMost(MergeAll(current, requests), bound) {
        assert BoundsAll(current, rest, bound);
        MergeIsJoin(before, last, bound);
      }
    }
  }

  /** The order and repetition of renewals and completion fences do not matter for deadline and rank. */
  lemma MergeOrderIrrelevant(current: Value, requests: seq<Value>, reordered: seq<Value>)
    requires WellFormedLease(current) && AllWellFormed(requests)
    requires forall v :: v in requests <==> v in reordered
    ensures LeaseAtMost(MergeAll(current, requests), MergeAll(current, reordered))
    ensures LeaseAtMost(MergeAll(current, reordered), MergeAll(current, requests))
  {
    forall i | 0 <= i < |reordered| ensures WellFormedLease(reordered[i]) { assert reordered[i] in requests; }
    MergeAllCovers(current, requests, reordered);
    MergeAllCovers(current, reordered, requests);
  }

  lemma MergeAllCovers(current: Value, requests: seq<Value>, reordered: seq<Value>)
    requires WellFormedLease(current) && AllWellFormed(requests) && AllWellFormed(reordered)
    requires forall v :: v in requests ==> v in reordered
    ensures LeaseAtMost(MergeAll(current, requests), MergeAll(current, reordered))
  {
    MergeAllIsJoin(current, requests);
    MergeAllIsJoin(current, reordered);
    var top := MergeAll(current, reordered);
    forall i | 0 <= i < |requests| ensures LeaseAtMost(requests[i], top) { assert requests[i] in reordered; }
    assert BoundsAll(current, requests, top);
  }

  /** The event takes this lease away. */
  predicate RemovesLease(e: Event, invocation: string) {
    e.Write? && (e.request == ClearLease(invocation) || (e.request.Complete? && e.request.invocation == invocation))
  }

  /** A completion fence carries its time; weaker states do not compete with it. */
  predicate StaleFor(e: Event, invocation: string) {
    e.Write? && e.request.RenewLease? && e.request.invocation == invocation ==> e.request.state != CompletionPending
  }

  lemma LeaseStep(b: Body, e: Event, invocation: string)
    requires LeaseOf(invocation) in b.notes && WellFormedLease(b.notes[LeaseOf(invocation)])
    requires !RemovesLease(e, invocation)
    ensures LeaseOf(invocation) in After(b, e).notes
    ensures LeaseAtMost(b.notes[LeaseOf(invocation)], After(b, e).notes[LeaseOf(invocation)])
    ensures var v := b.notes[LeaseOf(invocation)];
            v.state == Some(CompletionPending) && v.completedAt.Some? && StaleFor(e, invocation) ==>
              var v' := After(b, e).notes[LeaseOf(invocation)];
              v'.state == v.state && v'.completedAt == v.completedAt
  {
    if Effective(b, e) {
      LeaseWrite(b, e.request, invocation);
    }
  }

  lemma LeaseWrite(b: Body, r: Request, invocation: string)
    requires LeaseOf(invocation) in b.notes && WellFormedLease(b.notes[LeaseOf(invocation)])
    requires Respond(b, r).Patch? && !RemovesLease(Write(r), invocation)
    ensures Get(Respond(b, r).notes, LeaseOf(invocation)) ==
            if r.RenewLease? && r.invocation == invocation
            then Some(MergeLease(Get(b.notes, LeaseOf(invocation)), Lease(Some(r.until), Some(r.state), r.completed)))
            else Get(b.notes, LeaseOf(invocation))
  {}

  /**
   * Until it is removed, a lease's deadline and rank only go up under any writes, and a recorded
   * completion with its time survives every heartbeat that is not itself a completion fence.
   */
  lemma {:induction false} LeaseOnlyGrows(b: Body, events: seq<Event>, invocation: string)
    requires LeaseOf(invocation) in b.notes && WellFormedLease(b.notes[LeaseOf(invocation)])
    requires forall i :: 0 <= i < |events| ==> !RemovesLease(events[i], invocation)
    ensures LeaseOf(invocation) in Replay(b, events).notes
    ensures LeaseAtMost(b.notes[LeaseOf(invocation)], Replay(b, events).notes[LeaseOf(invocation)])
    ensures var v := b.notes[LeaseOf(invocation)];
            v.state == Some(CompletionPending) && v.completedAt.Some?
            && (forall i :: 0 <= i < |events| ==> StaleFor(events[i], invocation)) ==>
              var v' := Replay(b, events).notes[LeaseOf(invocation)];
              v'.state == v.state && v'.completedAt == v.completedAt
  {
    if events != [] {
      var n := |events| - 1;
      LeaseOnlyGrows(b, events[..n], invocation);
      LeaseStep(Replay(b, events[..n]), events[n], invocation);
    }
  }

  // ---------------------------------------------------------------- completion and its retry

  predicate LeaseTouchOrCompletion(e: Event) {
    e.Foreign? || (e.Write? && (e.request.RenewLease? || e.request.Touch? || e.request.Complete?))
  }

  predicate ActiveSince(b: Body, ms: int) {
    !b.deleting && AtLeast(Get(b.notes, LastActive), ms)
  }

  lemma ActivityStep(b: Body, e: Event, ms: int)
    requires ActiveSince(b, ms) && LeaseTouchOrCompletion(e)
    ensures ActiveSince(After(b, e), ms)
  {
    if Effective(b, e) {
      var notes := Respond(b, e.request).notes;
      assert Get(notes, LastActive) == match e.request
        case Touch(now) => Some(LaterProtection(Get(b.notes, LastActive), Moment(now)))
        case Complete(_, at) => Some(LaterProtection(Get(b.notes, LastActive), Moment(at)))
        case _ => Get(b.notes, LastActive);
    }
  }

  lemma {:induction false} ActivityKept(b: Body, events: seq<Event>, ms: int)
    requires ActiveSince(b, ms) && forall i :: 0 <= i < |events| ==> LeaseTouchOrCompletion(events[i])
    ensures ActiveSince(Replay(b, events), ms)
  {
    if events != [] {
      var n := |events| - 1;
      ActivityKept(b, events[..n], ms);
      ActivityStep(Replay(b, events[..n]), events[n], ms);
    }
  }

  /**
   * A completion whose reply was lost may be repeated: while only leases, touches and completions
   * intervene, the repeat succeeds, at once or by patching again.
   */
  lemma CompletionRetrySucceeds(b: Body, invocation: string, completedAt: int, events: seq<Event>)
    requires Effective(b, Write(Complete(invocation, completedAt)))
    requires Get(b.notes, LastActive).Some? ==> b.notes[LastActive].Moment?
    requires forall i :: 0 <= i < |events| ==> LeaseTouchOrCompletion(events[i])
    ensures Respond(Replay(After(b, Write(Complete(invocation, completedAt))), events), Complete(invocation, completedAt)) != Refused
  {
    var done := After(b, Write(Complete(invocation, completedAt)));
    CompletionIsAtomic(b, invocation, completedAt);
    ActivityKept(done, events, completedAt);
  }

  // ---------------------------------------------------------------- terminal markers

  function Generation(b: Body): Option<Value> {
    Get(b.notes, ActivityGeneration)
  }

  /** The generation an event writes, if it writes one. */
  function WritesGeneration(e: Event): Option<Value> {
    if !e.Write? then None
    else match e.request
      case RenewLease(_, _, generation, _, _) => AsToken(generation)
      case Admit(ensured, _, _) => Some(Token(ensured))
      case _ => None
  }

  predicate Fenced(e: Event) {
    e.Write? && e.request.Terminate? ==> e.request.update.expected.Some?
  }

  /** The generation for which the newest terminal update was written. */
  function MarkedFor(b: Body, events: seq<Event>): Option<Option<Value>> {
    if events == [] then None
    else
      var n := |events| - 1;
      var e := events[n];
      if Effective(At(b, events, n), e) && e.request.Terminate? && e.request.update.expected.Some?
      then Some(AsToken(e.request.update.expected.value))
      else MarkedFor(b, events[..n])
  }

  /** Outside terminal updates: a changed generation leaves no marker, an unchanged one the marker as it was or none. */
  lemma MarkerStep(b: Body, e: Event)
    requires !(Effective(b, e) && e.request.Terminate?)
    ensures TerminalAt in After(b, e).notes ==>
              Generation(After(b, e)) == Generation(b) && Get(b.notes, TerminalAt) == Get(After(b, e).notes, TerminalAt)
    ensures Effective(b, e) && WritesGeneration(e).Some? ==> Generation(After(b, e)) == WritesGeneration(e)
    ensures !(Effective(b, e) && WritesGeneration(e).Some?) ==>
              Generation(After(b, e)) == Generation(b) && Get(After(b, e).notes, TerminalAt) == Get(b.notes, TerminalAt)
  {
    if Effective(b, e) { MarkerWrite(b, e.request); }
  }

  lemma MarkerWrite(b: Body, r: Request)
    requires Respond(b, r).Patch? && !r.Terminate?
    ensures var notes := Respond(b, r).notes;
            var g := WritesGeneration(Write(r));
            && Get(notes, ActivityGeneration) == (if g.Some? then g else Get(b.notes, ActivityGeneration))
            && Get(notes, TerminalAt) == (if g.Some? then None else Get(b.notes, TerminalAt))
  {}

  lemma TerminateStep(b: Body, u: TerminalUpdate)
    requires Respond(b, Terminate(u)).Patch?
    ensures var notes := Respond(b, Terminate(u)).notes;
            && Get(notes, TerminalAt) == Some(Moment(u.at))
            && Get(notes, ActivityGeneration) == Get(b.notes, ActivityGeneration)
            && (u.expected.Some? ==> AsToken(u.expected.value) == Generation(b))
            && !AtLeast(Get(b.notes, TerminalAt), u.at)
  {}

  /** When every terminal update names the activity it ends, a marker always belongs to the current one. */
  lemma {:induction false} MarkerNamesCurrentActivity(b: Body, events: seq<Event>)
    requires TerminalAt !in b.notes && forall i :: 0 <= i < |events| ==> Fenced(events[i])
    ensures TerminalAt in Replay(b, events).notes ==> MarkedFor(b, events) == Some(Generation(Replay(b, events)))
  {
    if events != [] {
      var n := |events| - 1;
      var before, e := Replay(b, events[..n]), events[n];
      MarkerNamesCurrentActivity(b, events[..n]);
      if Effective(before, e) && e.request.Terminate? {
        TerminateStep(before, e.request.update);
      } else {
        MarkerStep(before, e);
      }
    }
  }

  /** The event writes no generation, or another one. */
  predicate Spares(e: Event, g: Option<Value>) {
    WritesGeneration(e).None? || WritesGeneration(e) != g
  }

  /** A generation nobody writes again is not current again once it has been left. */
  lemma {:induction false} LeftForGood(b: Body, events: seq<Event>, g: Option<Value>)
    requires Generation(b) != g && forall i :: 0 <= i < |events| ==> Spares(events[i], g)
    ensures Generation(Replay(b, events)) != g
  {
    if events != [] {
      var n := |events| - 1;
      var before, e := Replay(b, events[..n]), events[n];
      LeftForGood(b, events[..n], g);
      if Effective(before, e) && e.request.Terminate? { TerminateStep(before, e.request.update); } else { MarkerStep(before, e); }
    }
  }

  /** A late update for an activity that has been replaced never takes effect. */
  lemma LateUpdateIgnored(b: Body, events: seq<Event>, u: TerminalUpdate)
    requires u.expected.Some? && Generation(b) != AsToken(u.expected.value)
    requires forall i :: 0 <= i < |events| ==> Spares(events[i], AsToken(u.expected.value))
    ensures !Respond(Replay(b, events), Terminate(u)).Patch?
  {
    LeftForGood(b, events, AsToken(u.expected.value));
  }

  /** While its generation stays and is not written again, a marker is only replaced by a later one. */
  lemma {:induction false} MarkerOnlyRises(b: Body, events: seq<Event>, ms: int)
    requires AtLeast(Get(b.notes, TerminalAt), ms)
    requires forall i :: 0 <= i < |events| ==> Spares(events[i], Generation(b))
    requires Generation(Replay(b, events)) == Generation(b)
    ensures AtLeast(Get(Replay(b, events).notes, TerminalAt), ms)
  {
    if events != [] {
      var n := |events| - 1;
      var before, e := Replay(b, events[..n]), events[n];
      if Effective(before, e) && e.request.Terminate? {
        TerminateStep(before, e.request.update);
        MarkerOnlyRises(b, events[..n], ms);
        assert Get(before.notes, TerminalAt).value.Moment?;
      } else {
        MarkerStep(before, e);
        MarkerOnlyRises(b, events[..n], ms);
      }
    }
  }

  /** The object before event j is what events i and those between them make of the object before event i. */
  lemma AtAfter(b: Body, events: seq<Event>, i: nat, j: nat)
    requires i < j <= |events|
    ensures At(b, events, j) == Replay(After(At(b, events, i), events[i]), events[i + 1..j])
  {
    AtNext(b, events, i);
    assert events[..j] == events[..i + 1] + events[i + 1..j];
    ReplayAppend(b, events[..i + 1], events[i + 1..j]);
  }

  lemma TimesIncreaseAcross(first: Body, between: seq<Event>, u: TerminalUpdate, v: TerminalUpdate)
    requires Effective(first, Write(Terminate(u))) && u.expected.Some? && v.expected == u.expected
    requires Effective(Replay(After(first, Write(Terminate(u))), between), Write(Terminate(v)))
    requires forall k :: 0 <= k < |between| ==> Spares(between[k], AsToken(u.expected.value))
    ensures u.at < v.at
  {
    var marked := After(first, Write(Terminate(u)));
    TerminateStep(first, u);
    TerminateStep(Replay(marked, between), v);
    MarkerOnlyRises(marked, between, u.at);
  }

  /** Two terminal updates of one activity that both take effect carry strictly increasing times. */
  lemma TerminalTimesIncrease(b: Body, events: seq<Event>, i: nat, j: nat)
    requires i < j < |events|
    requires Effective(At(b, events, i), events[i]) && events[i].request.Terminate? && events[i].request.update.expected.Some?
    requires Effective(At(b, events, j), events[j]) && events[j].request.Terminate?
    requires events[j].request.update.expected == events[i].request.update.expected
    requires forall k :: i < k < j ==> Spares(events[k], AsToken(events[i].request.update.expected.value))
    ensures events[i].request.update.at < events[j].request.update.at
  {
    var between := events[i + 1..j];
    AtAfter(b, events, i, j);
    forall k | 0 <= k < |between| ensures Spares(between[k], AsToken(events[i].request.update.expected.value)) {
      assert between[k] == events[i + 1 + k];
    }
    TimesIncreaseAcross(At(b, events, i), between, events[i].request.update, events[j].request.update);
  }

  // ---------------------------------------------------------------- the four markers are one update

  /** The newest effective terminal update since the activity generation was last written. */
  function NewestUpdate(b: Body, events: seq<Event>): Option<TerminalUpdate> {
    if events == [] then None
    else
      var n := |events| - 1;
      var e := events[n];
      if !Effective(At(b, events, n), e) then NewestUpdate(b, events[..n])
      else if e.request.Terminate? then Some(e.request.update)
      else if WritesGeneration(e).Some? then None
      else NewestUpdate(b, events[..n])
  }

  /** The markers carry exactly this update, or are absent. */
  predicate CarriesUpdate(notes: Notes, u: Option<TerminalUpdate>) {
    && Get(notes, TerminalState) == (if u.None? then None else Some(Token(u.value.state)))
    && Get(notes, TerminalAt) == (if u.None? then None else Some(Moment(u.value.at)))
    && Get(notes, TerminalOutcome) == (if u.None? then None else AsToken(u.value.outcome))
    && Get(notes, RetentionDeadline) == (if u.None? || u.value.retention.None? then None else Some(Moment(u.value.retention.value)))
  }

  lemma KeepsMarkers(b: Body, r: Request, u: Option<TerminalUpdate>)
    requires Respond(b, r).Patch? && !r.Terminate? && WritesGeneration(Write(r)).None? && CarriesUpdate(b.notes, u)
    ensures CarriesUpdate(Respond(b, r).notes, u)
  {
    if r.RenewLease? {
      RenewWrites(b, r.invocation, r.until, r.generation, r.state, r.completed);
    } else if r.ClearLease? {
      ClearRemovesOne(b, r.invocation);
    } else {
      ElsewhereKeepsMarkers(b, r);
    }
  }

  lemma ElsewhereKeepsMarkers(b: Body, r: Request)
    requires Respond(b, r).Patch? && (r.Complete? || r.Touch? || r.Protect? || r.Unprotect? || r.Advance?)
    ensures forall k :: k in TERMINAL_KEYS ==> Get(Respond(b, r).notes, k) == Get(b.notes, k)
  {}

  lemma StartsUnmarked(b: Body, r: Request)
    requires Respond(b, r).Patch? && WritesGeneration(Write(r)).Some?
    ensures CarriesUpdate(Respond(b, r).notes, None)
  {
    if r.RenewLease? {
      RenewWrites(b, r.invocation, r.until, r.generation, r.state, r.completed);
    } else {
      AdmitStartsActivity(b, r.ensured, r.at, r.workload);
    }
  }

  /** Over any events the four terminal markers are those of one update, never a mixture, and go together. */
  lemma {:induction false} MarkersAreOneUpdate(b: Body, events: seq<Event>)
    requires CarriesUpdate(b.notes, None)
    ensures CarriesUpdate(Replay(b, events).notes, NewestUpdate(b, events))
  {
    if events != [] {
      var n := |events| - 1;
      var before, e := Replay(b, events[..n]), events[n];
      MarkersAreOneUpdate(b, events[..n]);
      if Effective(before, e) {
        if e.request.Terminate? { TerminateSetsMarkers(before, e.request.update); }
        else if WritesGeneration(e).Some? { StartsUnmarked(before, e.request); }
        else { KeepsMarkers(before, e.request, NewestUpdate(b, events[..n])); }
      }
    }
  }

  /** The event speaks of this invocation. */
  predicate Concerns(e: Event, invocation: string) {
    e.Write? && (e.request.RenewLease? || e.request.ClearLease? || e.request.Complete?) && e.request.invocation == invocation
  }

  lemma KeepsLease(b: Body, r: Request, invocation: string)
    requires Respond(b, r).Patch? && !Concerns(Write(r), invocation)
    ensures Get(Respond(b, r).notes, LeaseOf(invocation)) == Get(b.notes, LeaseOf(invocation))
  {
    if r.RenewLease? {
      RenewWrites(b, r.invocation, r.until, r.generation, r.state, r.completed);
    } else if r.ClearLease? {
      ClearRemovesOne(b, r.invocation);
    } else if r.Terminate? {
      TerminateSetsMarkers(b, r.update);
    } else if r.Admit? {
      AdmitStartsActivity(b, r.ensured, r.at, r.workload);
    } else {
      ElsewhereKeepsLease(b, r, invocation);
    }
  }

  lemma ElsewhereKeepsLease(b: Body, r: Request, invocation: string)
    requires Respond(b, r).Patch? && !Concerns(Write(r), invocation)
    requires r.Complete? || r.Touch? || r.Protect? || r.Unprotect? || r.Advance?
    ensures Get(Respond(b, r).notes, LeaseOf(invocation)) == Get(b.notes, LeaseOf(invocation))
  {}

  /** Over any events, a lease is touched only by those that name its invocation. */
  lemma {:induction false} LeaseIsPrivate(b: Body, events: seq<Event>, invocation: string)
    requires forall i :: 0 <= i < |events| ==> !Concerns(events[i], invocation)
    ensures Get(Replay(b, events).notes, LeaseOf(invocation)) == Get(b.notes, LeaseOf(invocation))
  {
    if events != [] {
      var n := |events| - 1;
      var before, e := Replay(b, events[..n]), events[n];
      LeaseIsPrivate(b, events[..n], invocation);
      if Effective(before, e) { KeepsLease(before, e.request, invocation); }
    }
  }

  predicate KnownWorkload(v: Option<Value>) {
    v.Some? && v.value.Workload? && v.value.known
  }

  lemma KeepsWorkload(b: Body, r: Request)
    requires Respond(b, r).Patch? && KnownWorkload(Get(b.notes, WorkloadDescriptor))
    ensures Get(Respond(b, r).notes, WorkloadDescriptor) == Get(b.notes, WorkloadDescriptor)
  {
    if r.RenewLease? {
      RenewWrites(b, r.invocation, r.until, r.generation, r.state, r.completed);
    } else if r.ClearLease? {
      ClearRemovesOne(b, r.invocation);
    } else if r.Terminate? {
      TerminateSetsMarkers(b, r.update);
    } else if r.Admit? {
      AdmitStartsActivity(b, r.ensured, r.at, r.workload);
    }
  }

  /** Over any events, later admissions included, a known workload class is never rewritten. */
  lemma {:induction false} KnownWorkloadStays(b: Body, events: seq<Event>)
    requires KnownWorkload(Get(b.notes, WorkloadDescriptor))
    ensures Get(Replay(b, events).notes, WorkloadDescriptor) == Get(b.notes, WorkloadDescriptor)
  {
    if events != [] {
      var n := |events| - 1;
      var before, e := Replay(b, events[..n]), events[n];
      KnownWorkloadStays(b, events[..n]);
      if Effective(before, e) { KeepsWorkload(before, e.request); }
    }
  }

  // ---------------------------------------------------------------- deletion generation

  function ChainOf(b: Body): Option<Value> {
    Get(b.notes, DeletionGeneration)
  }

  /** The event continues a chain that stands at `current`, or starts one. */
  predicate Continues(e: Event, current: Option<Value>) {
    e.Write? && e.request.Advance? && (current.None? || current == AsToken(e.request.previous))
  }

  lemma ChainStep(b: Body, e: Event)
    ensures ChainOf(After(b, e)) == if Continues(e, ChainOf(b)) then Some(Token(e.request.next)) else ChainOf(b)
  {
    if Effective(b, e) { ChainWrite(b, e.request); }
  }

  lemma ChainWrite(b: Body, r: Request)
    requires Respond(b, r).Patch?
    ensures ChainOf(b.(notes := Respond(b, r).notes)) == if r.Advance? then Some(Token(r.next)) else ChainOf(b)
  {}

  /** From event i to the next: an advance from the current token moves the chain, anything else leaves it. */
  predicate ChainLinkAt(b: Body, events: seq<Event>, i: nat)
    requires i < |events|
  {
    var current := ChainOf(At(b, events, i));
    ChainOf(At(b, events, i + 1)) == if Continues(events[i], current) then Some(Token(events[i].request.next)) else current
  }

  lemma ChainLinks(b: Body, events: seq<Event>, i: nat)
    requires i < |events|
    ensures ChainLinkAt(b, events, i)
  {
    AtNext(b, events, i);
    ChainStep(At(b, events, i), events[i]);
  }

  /** A chain once begun is never taken back. */
  lemma {:induction false} ChainStays(b: Body, events: seq<Event>, i: nat, j: nat)
    requires i <= j <= |events|
    ensures ChainOf(At(b, events, i)).Some? ==> ChainOf(At(b, events, j)).Some?
  {
    if i < j {
      ChainStays(b, events, i, j - 1);
      ChainLinks(b, events, j - 1);
      assert ChainLinkAt(b, events, j - 1);
    }
  }

  /** Over any events, at every point, the generation moves only by advances from the token it stands at, and never back to none. */
  lemma GenerationIsChain(b: Body, events: seq<Event>)
    ensures forall i :: 0 <= i < |events| ==> ChainLinkAt(b, events, i)
    ensures forall i, j :: 0 <= i <= j <= |events| && ChainOf(At(b, events, i)).Some? ==> ChainOf(At(b, events, j)).Some?
  {
    forall i | 0 <= i < |events| ensures ChainLinkAt(b, events, i) { ChainLinks(b, events, i); }
    forall i, j | 0 <= i <= j <= |events| && ChainOf(At(b, events, i)).Some? ensures ChainOf(At(b, events, j)).Some? {
      ChainStays(b, events, i, j);
    }
  }

  predicate AdvancesTo(e: Event, g: string) {
    e.Write? && e.request.Advance? && e.request.next == g
  }

  /** A deletion claim that the chain has left, and that nobody advances to again, never matches again. */
  lemma {:induction false} ClaimLapses(b: Body, events: seq<Event>, g: string)
    requires ChainOf(b) != Some(Token(g)) && forall i :: 0 <= i < |events| ==> !AdvancesTo(events[i], g)
    ensures ChainOf(Replay(b, events)) != Some(Token(g))
  {
    if events != [] {
      var n := |events| - 1;
      ClaimLapses(b, events[..n], g);
      ChainStep(Replay(b, events[..n]), events[n]);
    }
  }

  // ---------------------------------------------------------------- background protection

  predicate Raises(b: Body, e: Event) {
    e.Write? && e.request.Protect? && !b.deleting
    && (ProtectionMs(Get(b.notes, ProtectedUntil)).None? || ProtectionMs(Get(b.notes, ProtectedUntil)).value < e.request.until)
  }

  predicate Labelled(e: Event) {
    e.Write? && e.request.Protect? ==> e.request.generation.Some?
  }

  /** The label of the writer who last strictly raised the deadline. */
  function LastRaiser(b: Body, events: seq<Event>): Option<Value> {
    if events == [] then None
    else
      var n := |events| - 1;
      if Raises(At(b, events, n), events[n]) then AsToken(events[n].request.generation) else LastRaiser(b, events[..n])
  }

  predicate ClearsProtection(b: Body, e: Event) {
    && e.Write? && e.request.Unprotect?
    && (e.request.fence.Some? ==> Get(b.notes, ProtectionGeneration) == AsToken(e.request.fence.value))
  }

  predicate MomentProtection(b: Body) {
    ProtectedUntil in b.notes ==> b.notes[ProtectedUntil].Moment?
  }

  /** One event's effect on deadline and label, in full. */
  lemma ProtectionStep(b: Body, e: Event)
    requires MomentProtection(b)
    ensures MomentProtection(After(b, e))
    ensures Raises(b, e) ==>
              && Get(After(b, e).notes, ProtectedUntil) == Some(Moment(e.request.until))
              && Get(After(b, e).notes, ProtectionGeneration) ==
                 (if e.request.generation.Some? then AsToken(e.request.generation) else Get(b.notes, ProtectionGeneration))
    ensures ClearsProtection(b, e) ==> ProtectedUntil !in After(b, e).notes && ProtectionGeneration !in After(b, e).notes
    ensures !Raises(b, e) && !ClearsProtection(b, e) ==>
              && Get(After(b, e).notes, ProtectedUntil) == Get(b.notes, ProtectedUntil)
              && (ProtectionGeneration in b.notes || ProtectedUntil !in b.notes ==>
                    Get(After(b, e).notes, ProtectionGeneration) == Get(b.notes, ProtectionGeneration))
              && (Get(After(b, e).notes, ProtectionGeneration) == Get(b.notes, ProtectionGeneration)
                  || (e.Write? && e.request.Protect? && Get(After(b, e).notes, ProtectionGeneration) == AsToken(e.request.generation)))
  {
    if e.Write? {
      if e.request.Protect? {
        if !b.deleting { ProtectWrite(b, e.request.until, e.request.generation); }
      } else if e.request.Unprotect? {
        UnprotectWrite(b, e.request.fence);
      } else if Respond(b, e.request).Patch? {
        OtherWrite(b, e.request);
      }
    }
  }

  lemma ProtectWrite(b: Body, until: int, generation: Option<string>)
    requires MomentProtection(b) && !b.deleting
    ensures var b' := After(b, Write(Protect(until, generation)));
            var current := Get(b.notes, ProtectedUntil);
            if current.None? || current.value.ms < until then
              && Get(b'.notes, ProtectedUntil) == Some(Moment(until))
              && Get(b'.notes, ProtectionGeneration) ==
                 (if generation.Some? then AsToken(generation) else Get(b.notes, ProtectionGeneration))
            else
              && Get(b'.notes, ProtectedUntil) == current
              && (ProtectionGeneration in b.notes ==> Get(b'.notes, ProtectionGeneration) == Get(b.notes, ProtectionGeneration))
              && (ProtectionGeneration !in b.notes ==>
                    Get(b'.notes, ProtectionGeneration) == if current == Some(Moment(until)) then AsToken(generation) else None)
  {
    if generation.Some? {
      var current := Get(b.notes, ProtectedUntil);
      var options := Options(Latest, None, map[ProtectionGeneration := AsToken(generation)], true);
      assert Changes(b.notes, ProtectedUntil, Some(Moment(until)), options, ProtectionGeneration) <==>
             && (current.None? || current.value.ms < until || (current == Some(Moment(until)) && ProtectionGeneration !in b.notes))
             && Get(b.notes, ProtectionGeneration) != AsToken(generation);
    }
  }

  lemma UnprotectWrite(b: Body, fence: Option<Option<string>>)
    ensures var b' := After(b, Write(Unprotect(fence)));
            if ClearsProtection(b, Write(Unprotect(fence)))
            then ProtectedUntil !in b'.notes && ProtectionGeneration !in b'.notes
            else b' == b
  {
    var b' := After(b, Write(Unprotect(fence)));
    assert Get(b'.notes, ProtectedUntil) == None || b' == b;
    assert Get(b'.notes, ProtectionGeneration) == None || b' == b;
  }

  lemma OtherWrite(b: Body, r: Request)
    requires Respond(b, r).Patch? && !r.Protect? && !r.Unprotect?
    ensures Get(Respond(b, r).notes, ProtectedUntil) == Get(b.notes, ProtectedUntil)
    ensures Get(Respond(b, r).notes, ProtectionGeneration) == Get(b.notes, ProtectionGeneration)
  {}

  /**
   * With labelled writers the stored generation is always that of the last strict raiser, so a fenced
   * clear removes a deadline only for the writer who put it there.
   */
  lemma {:induction false} LabelNamesLastRaiser(b: Body, events: seq<Event>)
    requires ProtectedUntil !in b.notes && ProtectionGeneration !in b.notes
    requires forall i :: 0 <= i < |events| ==> Labelled(events[i])
    ensures var b' := Replay(b, events);
            && MomentProtection(b')
            && (ProtectedUntil in b'.notes <==> ProtectionGeneration in b'.notes)
            && (ProtectedUntil in b'.notes ==> Get(b'.notes, ProtectionGeneration) == LastRaiser(b, events))
  {
    if events != [] {
      var n := |events| - 1;
      LabelNamesLastRaiser(b, events[..n]);
      ProtectionStep(Replay(b, events[..n]), events[n]);
    }
  }

  lemma FencedClearIsOwn(b: Body, events: seq<Event>, g: string)
    requires ProtectedUntil !in b.notes && ProtectionGeneration !in b.notes
    requires forall i :: 0 <= i < |events| ==> Labelled(events[i])
    ensures var b' := Replay(b, events);
            ProtectedUntil in b'.notes ==>
              (ProtectedUntil !in After(b', Write(Unprotect(Some(Some(g))))).notes <==> LastRaiser(b, events) == Some(Token(g)))
  {
    LabelNamesLastRaiser(b, events);
    UnprotectWrite(Replay(b, events), Some(Some(g)));
  }

  /** Only a clear lowers or removes a deadline. */
  lemma {:induction false} DeadlineOnlyRises(b: Body, events: seq<Event>)
    requires MomentProtection(b)
    requires forall i :: 0 <= i < |events| ==> !(events[i].Write? && events[i].request.Unprotect?)
    ensures MomentProtection(Replay(b, events))
    ensures ProtectedUntil in b.notes ==>
              ProtectedUntil in Replay(b, events).notes && Replay(b, events).notes[ProtectedUntil].ms >= b.notes[ProtectedUntil].ms
  {
    if events != [] {
      var n := |events| - 1;
      DeadlineOnlyRises(b, events[..n]);
      ProtectionStep(Replay(b, events[..n]), events[n]);
    }
  }

  /** A clear fenced by generation g takes the protection away. */
  predicate FencedClearRemoves(b: Body, g: string) {
    ProtectedUntil !in After(b, Write(Unprotect(Some(Some(g))))).notes
  }

  /** From an unprotected body, labelled or not: a labelled last raiser is the one whose label is stored. */
  lemma {:induction false} StoredLabel(b: Body, events: seq<Event>)
    requires ProtectedUntil !in b.notes && ProtectionGeneration !in b.notes
    ensures var b' := Replay(b, events);
            && MomentProtection(b')
            && (ProtectionGeneration in b'.notes ==> ProtectedUntil in b'.notes && b'.notes[ProtectionGeneration].Token?)
            && (ProtectedUntil in b'.notes && LastRaiser(b, events).Some? ==>
                  Get(b'.notes, ProtectionGeneration) == LastRaiser(b, events))
  {
    if events != [] {
      var n := |events| - 1;
      StoredLabel(b, events[..n]);
      ProtectionStep(Replay(b, events[..n]), events[n]);
    }
  }

  /**
   * When the fence of a clear can be trusted, over any events from an unprotected body: every fenced
   * clear that removes the deadline belongs to its last strict raiser exactly when that raiser was
   * labelled or the object carries no label at all.
   */
  lemma FenceSafeIff(b: Body, events: seq<Event>)
    requires ProtectedUntil !in b.notes && ProtectionGeneration !in b.notes
    requires ProtectedUntil in Replay(b, events).notes
    ensures (forall g :: FencedClearRemoves(Replay(b, events), g) ==> LastRaiser(b, events) == Some(Token(g)))
            <==> LastRaiser(b, events).Some? || ProtectionGeneration !in Replay(b, events).notes
  {
    var b' := Replay(b, events);
    StoredLabel(b, events);
    forall g ensures FencedClearRemoves(b', g) <==> Get(b'.notes, ProtectionGeneration) == Some(Token(g)) {
      UnprotectWrite(b', Some(Some(g)));
    }
    if ProtectionGeneration in b'.notes && LastRaiser(b, events).None? {
      assert FencedClearRemoves(b', b'.notes[ProtectionGeneration].text);
    }
  }

  /** Without labels the fence fails: "a" clears a deadline that an unlabelled writer raised. */
  lemma UnlabelledRaiseIsCleared()
    ensures var empty := Body(false, false, map[]);
            var raised := [Write(Protect(10, Some("a"))), Write(Protect(20, None))];
            && LastRaiser(empty, raised) == None
            && Get(Replay(empty, raised).notes, ProtectedUntil) == Some(Moment(20))
            && ProtectedUntil !in After(Replay(empty, raised), Write(Unprotect(Some(Some("a"))))).notes
  {
    var empty := Body(false, false, map[]);
    var e1, e2 := Write(Protect(10, Some("a"))), Write(Protect(20, None));
    var raised := [e1, e2];
    assert raised[..1] == [e1] && [e1][..0] == [];
    var b1 := After(empty, e1);
    assert Replay(empty, [e1]) == b1 && Replay(empty, raised) == After(b1, e2);
    ProtectionStep(empty, e1);
    ProtectionStep(b1, e2);
    UnprotectWrite(After(b1, e2), Some(Some("a")));
  }

  /** Nor does a label prove a raise: "a" writes the deadline already there, is stored as its label, and may clear it. */
  lemma EqualDeadlineAdoptsLabel()
    ensures var empty := Body(false, false, map[]);
            var written := [Write(Protect(20, None)), Write(Protect(20, Some("a")))];
            && LastRaiser(empty, written) == None
            && Get(Replay(empty, written).notes, ProtectedUntil) == Some(Moment(20))
            && FencedClearRemoves(Replay(empty, written), "a")
  {
    var empty := Body(false, false, map[]);
    var e1, e2 := Write(Protect(20, None)), Write(Protect(20, Some("a")));
    var written := [e1, e2];
    assert written[..1] == [e1] && [e1][..0] == [];
    var b1 := After(empty, e1);
    assert Replay(empty, [e1]) == b1 && Replay(empty, written) == After(b1, e2);
    ProtectionStep(empty, e1);
    ProtectWrite(b1, 20, Some("a"));
    ProtectionStep(b1, e2);
    UnprotectWrite(After(b1, e2), Some(Some("a")));
  }
}
