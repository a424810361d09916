/** Request by request: when a write is refused, when there is nothing to do, and what it leaves on the object. */
module SandboxWrites {
  import opened Text
  import opened SandboxResource

  /** The annotations after the client has acted on what it read. */
  function Left(b: Body, r: Request): Notes {
    if Respond(b, r).Patch? then Respond(b, r).notes else b.notes
  }

  /** Nothing but these keys differs from before. */
  ghost predicate OnlyTouches(b: Body, r: Request, keys: set<Key>) {
    forall k: Key :: k !in keys ==> (k in Left(b, r) <==> k in b.notes) && (k in b.notes && k in Left(b, r) ==> Left(b, r)[k] == b.notes[k])
  }

  lemma TouchesFromGet(b: Body, r: Request, keys: set<Key>)
    requires forall k :: k !in keys ==> Get(Left(b, r), k) == Get(b.notes, k)
    ensures OnlyTouches(b, r, keys)
  {
    forall k: Key | k !in keys
      ensures (k in Left(b, r) <==> k in b.notes) && (k in b.notes && k in Left(b, r) ==> Left(b, r)[k] == b.notes[k])
    {
      assert Get(Left(b, r), k) == Get(b.notes, k);
    }
  }

  // ---------------------------------------------------------------- leases

  /** The lease document of an invocation, if the annotation is one. */
  function LeaseIn(notes: Notes, invocation: string): Option<Value> {
    if LeaseOf(invocation) in notes && notes[LeaseOf(invocation)].Lease? then Some(notes[LeaseOf(invocation)]) else None
  }

  /** The later of two deadlines, an absent one counting for nothing. */
  predicate LaterOf(a: Option<int>, b: int, r: Option<int>) {
    r.Some? && r.value >= b && (a.Some? ==> r.value >= a.value) && (r.value == b || r == a)
  }

  /** A state never falls back: completion stays, background yields only to completion. */
  predicate StrongerOf(a: Option<LeaseState>, b: LeaseState, r: Option<LeaseState>) {
    && r.Some?
    && (r.value == CompletionPending <==> a == Some(CompletionPending) || b == CompletionPending)
    && (r.value == BackgroundPending <==>
          a != Some(CompletionPending) && b != CompletionPending && (a == Some(BackgroundPending) || b == BackgroundPending))
    && (a != Some(CompletionPending) && a != Some(BackgroundPending) && b != CompletionPending && b != BackgroundPending ==> r.value == b)
  }

  lemma RenewLeft(b: Body, invocation: string, until: int, generation: Option<string>, state: LeaseState, completed: Option<int>, k: Key)
    requires !b.deleting
    ensures var r := RenewLease(invocation, until, generation, state, completed);
            Get(Left(b, r), k) ==
              if k == LeaseOf(invocation)
              then Some(MergeLease(Get(b.notes, k), Lease(Some(until), Some(state), completed)))
              else if k !in RenewKeys(invocation, generation) then Get(b.notes, k)
              else if k == ActivityGeneration then AsToken(generation)
              else None
  {
    var r := RenewLease(invocation, until, generation, state, completed);
    if Respond(b, r).Patch? {
      RenewAt(b, invocation, until, generation, state, completed, k);
    } else {
      NothingToRenew(b, invocation, until, generation, state, completed, k);
    }
  }

  lemma NothingToRenew(b: Body, invocation: string, until: int, generation: Option<string>, state: LeaseState, completed: Option<int>, k: Key)
    requires !b.deleting && !Respond(b, RenewLease(invocation, until, generation, state, completed)).Patch?
    ensures Get(b.notes, LeaseOf(invocation)) == Some(MergeLease(Get(b.notes, LeaseOf(invocation)), Lease(Some(until), Some(state), completed)))
    ensures k in ActivityUpdates(generation) ==> Get(b.notes, k) == ActivityUpdates(generation)[k]
  {
    if k in ActivityUpdates(generation) {
      assert !Changes(b.notes, LeaseOf(invocation), Some(Lease(Some(until), Some(state), completed)),
                      Options(LeaseMerge, None, ActivityUpdates(generation), false), k);
    }
  }

  /**
   * A renewal is refused exactly on an object in deletion. Otherwise the lease stands afterwards with the
   * later of the two deadlines and the stronger of the two states; a named generation is now the current
   * activity and its terminal markers are gone; nothing else has moved.
   */
  lemma RenewDecides(b: Body, invocation: string, until: int, generation: Option<string>, state: LeaseState, completed: Option<int>)
    ensures var r := RenewLease(invocation, until, generation, state, completed);
            && (Respond(b, r).Refused? <==> b.deleting)
            && (!b.deleting ==>
                  var notes := Left(b, r);
                  var before, after := LeaseIn(b.notes, invocation), LeaseIn(notes, invocation);
                  && after.Some?
                  && LaterOf(if before.Some? then before.value.until else None, until, after.value.until)
                  && (if before.Some? then StrongerOf(before.value.state, state, after.value.state) else after.value.state == Some(state))
                  && (before.None? ==> after.value.completedAt == completed)
                  && (before.Some? && before.value.state == Some(CompletionPending) && state != CompletionPending && before.value.completedAt.Some? ==>
                        after.value.completedAt == before.value.completedAt)
                  && (state == CompletionPending && completed.Some? && (before.Some? ==> before.value.state != Some(CompletionPending)) ==>
                        after.value.completedAt == completed)
                  && (generation.Some? ==>
                        && ActivityGeneration in notes && notes[ActivityGeneration] == Token(generation.value)
                        && TerminalState !in notes && TerminalAt !in notes && TerminalOutcome !in notes && RetentionDeadline !in notes)
                  && OnlyTouches(b, r, {LeaseOf(invocation)} + if generation.Some?
                       then {ActivityGeneration, TerminalState, TerminalAt, TerminalOutcome, RetentionDeadline} else {}))
  {
    var r := RenewLease(invocation, until, generation, state, completed);
    if !b.deleting {
      RenewLeft(b, invocation, until, generation, state, completed, LeaseOf(invocation));
      if generation.Some? { RenewMarks(b, invocation, until, generation, state, completed); }
      forall k | k !in RenewKeys(invocation, generation) ensures Get(Left(b, r), k) == Get(b.notes, k) {
        RenewLeft(b, invocation, until, generation, state, completed, k);
      }
      TouchesFromGet(b, r, RenewKeys(invocation, generation));
    }
  }

  lemma RenewMarks(b: Body, invocation: string, until: int, generation: Option<string>, state: LeaseState, completed: Option<int>)
    requires !b.deleting && generation.Some?
    ensures var notes := Left(b, RenewLease(invocation, until, generation, state, completed));
            && ActivityGeneration in notes && notes[ActivityGeneration] == Token(generation.value)
            && TerminalState !in notes && TerminalAt !in notes && TerminalOutcome !in notes && RetentionDeadline !in notes
  {
    var notes := Left(b, RenewLease(invocation, until, generation, state, completed));
    forall k | k in TERMINAL_KEYS + {ActivityGeneration}
      ensures Get(notes, k) == if k == ActivityGeneration then AsToken(generation) else None
    {
      RenewLeft(b, invocation, until, generation, state, completed, k);
    }
    assert Get(notes, TerminalState).None? && Get(notes, TerminalAt).None? && Get(notes, TerminalOutcome).None?;
    assert Get(notes, RetentionDeadline).None? && Get(notes, ActivityGeneration) == AsToken(generation);
  }

  /** A clear works on any object, in deletion too: afterwards the lease is gone and nothing else has moved. */
  lemma ClearDecides(b: Body, invocation: string)
    ensures var r := ClearLease(invocation);
            && !Respond(b, r).Refused? && LeaseOf(invocation) !in Left(b, r) && OnlyTouches(b, r, {LeaseOf(invocation)})
            && (Respond(b, r).Patch? <==> LeaseOf(invocation) in b.notes)
  {
    ClearRemovesOne(b, invocation);
    TouchesFromGet(b, ClearLease(invocation), {LeaseOf(invocation)});
  }

  // ---------------------------------------------------------------- activity

  /** What the time readers take from an annotation. */
  function TimeIn(notes: Notes, key: Key): Option<int> {
    if key !in notes then None
    else match notes[key]
      case Moment(ms) => Some(ms)
      case Lease(until, _, _) => until
      case _ => None
  }

  /** The annotation now reads the later of what it read before and `ms`; if it was not later before, it is that moment. */
  predicate RaisedTo(before: Notes, after: Notes, key: Key, ms: int) {
    && key in after
    && (if TimeIn(before, key).Some? && TimeIn(before, key).value > ms then after[key] == before[key]
        else after[key] == Moment(ms))
  }

  /** A touch is refused exactly in deletion; otherwise the activity time is at least the one given, and never less than before. */
  lemma TouchDecides(b: Body, now: int)
    ensures Respond(b, Touch(now)).Refused? <==> b.deleting
    ensures !b.deleting ==> RaisedTo(b.notes, Left(b, Touch(now)), LastActive, now) && OnlyTouches(b, Touch(now), {LastActive})
  {
    if !b.deleting {
      assert Get(Left(b, Touch(now)), LastActive) == Some(LaterProtection(Get(b.notes, LastActive), Moment(now)));
      TouchesFromGet(b, Touch(now), {LastActive});
    }
  }

  /**
   * A completion is refused in deletion, and where there is neither its lease nor an activity time that
   * already covers it; it has nothing to do exactly where the lease is gone and the time covers it; and
   * otherwise one patch takes the lease off and raises the activity time.
   */
  lemma CompleteDecides(b: Body, invocation: string, completedAt: int)
    ensures var r := Complete(invocation, completedAt);
            var covered := LastActive in b.notes && b.notes[LastActive].Moment? && b.notes[LastActive].ms >= completedAt;
            && (Respond(b, r).Patch? <==> !b.deleting && LeaseOf(invocation) in b.notes)
            && (Respond(b, r).Unchanged? <==> !b.deleting && LeaseOf(invocation) !in b.notes && covered)
            && (Respond(b, r).Patch? ==> LeaseOf(invocation) !in Left(b, r) && RaisedTo(b.notes, Left(b, r), LastActive, completedAt)
                                         && OnlyTouches(b, r, {LeaseOf(invocation), LastActive}))
  {
    TouchesFromGet(b, Complete(invocation, completedAt), {LeaseOf(invocation), LastActive});
  }

  /** Admission is refused exactly in deletion; otherwise it starts a new activity and keeps only a workload class that is known. */
  lemma AdmitDecides(b: Body, generation: string, at: int, workload: Value)
    ensures var r := Admit(generation, at, workload);
            && (Respond(b, r).Refused? <==> b.deleting) && (Respond(b, r).Patch? <==> !b.deleting)
            && (!b.deleting ==>
                  var notes := Left(b, r);
                  && TerminalState !in notes && TerminalAt !in notes && TerminalOutcome !in notes && RetentionDeadline !in notes
                  && WorkloadDescriptor in notes && LastActive in notes && ActivityGeneration in notes
                  && notes[LastActive] == Moment(at) && notes[ActivityGeneration] == Token(generation)
                  && notes[WorkloadDescriptor] ==
                     (if WorkloadDescriptor in b.notes && b.notes[WorkloadDescriptor].Workload? && b.notes[WorkloadDescriptor].known
                      then b.notes[WorkloadDescriptor] else workload)
                  && OnlyTouches(b, r, {TerminalState, TerminalAt, TerminalOutcome, RetentionDeadline,
                                        WorkloadDescriptor, LastActive, ActivityGeneration}))
  {
    if !b.deleting {
      TouchesFromGet(b, Admit(generation, at, workload),
                     {TerminalState, TerminalAt, TerminalOutcome, RetentionDeadline, WorkloadDescriptor, LastActive, ActivityGeneration});
    }
  }

  /**
   * A terminal update is written exactly where the object is not in deletion, the activity it names is
   * the current one (or, naming none, no activity is as new), and no marker is as new. Then all four markers are its own.
   */
  lemma TerminateDecides(b: Body, u: TerminalUpdate)
    ensures var r := Terminate(u);
            && (Respond(b, r).Refused? <==> b.deleting)
            && (Respond(b, r).Patch? <==>
                  && !b.deleting
                  && (u.expected.Some? ==>
                        if u.expected.value.None? then ActivityGeneration !in b.notes
                        else ActivityGeneration in b.notes && b.notes[ActivityGeneration] == Token(u.expected.value.value))
                  && (u.expected.None? && LastActive in b.notes && b.notes[LastActive].Moment? ==> b.notes[LastActive].ms < u.at)
                  && (TerminalAt in b.notes && b.notes[TerminalAt].Moment? ==> b.notes[TerminalAt].ms < u.at))
            && (Respond(b, r).Patch? ==>
                  var notes := Left(b, r);
                  && TerminalState in notes && notes[TerminalState] == Token(u.state)
                  && TerminalAt in notes && notes[TerminalAt] == Moment(u.at)
                  && (TerminalOutcome in notes <==> u.outcome.Some?) && (u.outcome.Some? ==> notes[TerminalOutcome] == Token(u.outcome.value))
                  && (RetentionDeadline in notes <==> u.retention.Some?)
                  && (u.retention.Some? ==> notes[RetentionDeadline] == Moment(u.retention.value))
                  && OnlyTouches(b, r, {TerminalState, TerminalAt, TerminalOutcome, RetentionDeadline}))
  {
    if Respond(b, Terminate(u)).Patch? {
      TouchesFromGet(b, Terminate(u), {TerminalState, TerminalAt, TerminalOutcome, RetentionDeadline});
    }
  }

  // ---------------------------------------------------------------- protection and deletion generation

  /**
   * A protection is refused exactly in deletion; otherwise the deadline is raised to at least the one
   * asked for. Its label is the writer's, unless the standing deadline is later, or is the same and
   * has a label already.
   */
  lemma ProtectDecides(b: Body, until: int, generation: Option<string>)
    requires ProtectedUntil in b.notes ==> b.notes[ProtectedUntil].Moment?
    ensures var r := Protect(until, generation);
            && (Respond(b, r).Refused? <==> b.deleting)
            && (!b.deleting ==>
                  var notes := Left(b, r);
                  var before := TimeIn(b.notes, ProtectedUntil);
                  && RaisedTo(b.notes, notes, ProtectedUntil, until)
                  && (if generation.None? || (before.Some? && (before.value > until || (before.value == until && ProtectionGeneration in b.notes)))
                      then Get(notes, ProtectionGeneration) == Get(b.notes, ProtectionGeneration)
                      else ProtectionGeneration in notes && notes[ProtectionGeneration] == Token(generation.value))
                  && OnlyTouches(b, r, {ProtectedUntil, ProtectionGeneration}))
  {
    var r := Protect(until, generation);
    if !b.deleting {
      ProtectLeft(b, until, generation, ProtectedUntil);
      ProtectLeft(b, until, generation, ProtectionGeneration);
      forall k | k !in {ProtectedUntil, ProtectionGeneration} ensures Get(Left(b, r), k) == Get(b.notes, k) {
        ProtectLeft(b, until, generation, k);
      }
      TouchesFromGet(b, r, {ProtectedUntil, ProtectionGeneration});
    }
  }

  lemma ProtectLeft(b: Body, until: int, generation: Option<string>, k: Key)
    requires !b.deleting && (ProtectedUntil in b.notes ==> b.notes[ProtectedUntil].Moment?)
    ensures var before := TimeIn(b.notes, ProtectedUntil);
            Get(Left(b, Protect(until, generation)), k) ==
              if k == ProtectedUntil
              then Some(if before.Some? && before.value > until then b.notes[k] else Moment(until))
              else if k == ProtectionGeneration && generation.Some?
                      && !(before.Some? && (before.value > until || (before.value == until && ProtectionGeneration in b.notes)))
              then Some(Token(generation.value))
              else Get(b.notes, k)
  {
    var options := Options(Latest, None, if generation.Some? then map[ProtectionGeneration := AsToken(generation)] else map[], true);
    var value := Some(Moment(until));
    if Respond(b, Protect(until, generation)).Patch? {
      assert Get(Left(b, Protect(until, generation)), k) == Patched(b.notes, ProtectedUntil, value, options, k);
    } else if generation.Some? {
      assert !Changes(b.notes, ProtectedUntil, value, options, ProtectionGeneration);
    }
  }

  /** A clear of the protection, in deletion too, takes deadline and label off together, or, fenced by another label, does nothing. */
  lemma UnprotectDecides(b: Body, fence: Option<Option<string>>)
    ensures var r := Unprotect(fence);
            var passes := fence.None? || (if fence.value.None? then ProtectionGeneration !in b.notes
                                          else ProtectionGeneration in b.notes && b.notes[ProtectionGeneration] == Token(fence.value.value));
            && !Respond(b, r).Refused?
            && (passes ==> ProtectedUntil !in Left(b, r) && ProtectionGeneration !in Left(b, r)
                           && OnlyTouches(b, r, {ProtectedUntil, ProtectionGeneration}))
            && (!passes ==> Respond(b, r).Unchanged?)
  {
    var r := Unprotect(fence);
    var passes := fence.None? || AsToken(fence.value) == Get(b.notes, ProtectionGeneration);
    if passes {
      forall k: Key ensures Get(Left(b, r), k) == if k == ProtectedUntil || k == ProtectionGeneration then None else Get(b.notes, k) {
        UnprotectLeft(b, fence, k);
      }
      assert Get(Left(b, r), ProtectedUntil).None? && Get(Left(b, r), ProtectionGeneration).None?;
      TouchesFromGet(b, r, {ProtectedUntil, ProtectionGeneration});
    }
  }

  lemma UnprotectLeft(b: Body, fence: Option<Option<string>>, k: Key)
    requires fence.None? || AsToken(fence.value) == Get(b.notes, ProtectionGeneration)
    ensures Get(Left(b, Unprotect(fence)), k) == if k == ProtectedUntil || k == ProtectionGeneration then None else Get(b.notes, k)
  {
    var options := Options(Latest, if fence.Some? then Some((ProtectionGeneration, AsToken(fence.value))) else None,
                           map[ProtectionGeneration := None], true);
    if Respond(b, Unprotect(fence)).Patch? {
      assert Get(Left(b, Unprotect(fence)), k) == Patched(b.notes, ProtectedUntil, None, options, k);
    } else {
      assert !Changes(b.notes, ProtectedUntil, None, options, ProtectionGeneration);
    }
  }

  /** The deletion generation: nothing to do at its target, refused from any other recorded token, written otherwise. */
  lemma AdvanceDecides(b: Body, next: string, previous: Option<string>)
    ensures var r := Advance(next, previous);
            var recorded := DeletionGeneration in b.notes;
            && (Respond(b, r).Unchanged? <==> recorded && b.notes[DeletionGeneration] == Token(next))
            && (Respond(b, r).Patch? <==>
                  !recorded || (b.notes[DeletionGeneration] != Token(next) && previous.Some? && b.notes[DeletionGeneration] == Token(previous.value)))
            && (Respond(b, r).Patch? ==> DeletionGeneration in Left(b, r) && Left(b, r)[DeletionGeneration] == Token(next)
                                         && OnlyTouches(b, r, {DeletionGeneration}))
  {}
}
