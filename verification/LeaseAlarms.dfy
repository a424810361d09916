/** When the lease monitor raises its alarm, and that it is always armed to (invocationLeaseMonitor.ts). */
module LeaseAlarms {
  import opened Text
  import opened LeaseMonitor

  /** The limit the monitor checks the clock against has been reached. */
  predicate Reached(m: Monitor, now: int) {
    m.failAt.Some? && now >= m.failAt.value
  }

  /**
   * What is reported, and when: on a monitor neither failed nor closed, at once and with its own cause, a
   * start within five seconds of its deadline, a rejected renewal, one confirmed too late, the expiry
   * timer, and a finish at or after the limit. Nothing else reports anything, and each report is one notice.
   */
  lemma AlarmDecides(events: seq<Timed>, e: Event, now: int)
    ensures var t, t' := Play(events), Happen(Play(events), e, now);
            t'.m.failure ==
              if t.m.failure.Some? || t.m.closed then t.m.failure
              else match e
                case Opened(until) => if !t.begun && !t.m.finishing && until <= now + 5_000 then Some(ExpiredBeforeStart) else None
                case RenewTimer => None
                case RenewalDone(ok) =>
                  if t.m.renewal.None? then None
                  else if !ok then Some(RenewalFailed)
                  else if Reached(t.m, now) then Some(RenewedTooLate) else None
                case ExpiryTimer => if t.m.expiry.Some? then Some(NotRenewed) else None
                case FinishCalled(id) => if id !in t.calls && Reached(t.m, now) then Some(ExpiredBeforeCompletion) else None
                case FinishResumed(_) => None
    ensures var t, t' := Play(events), Happen(Play(events), e, now);
            t'.m.notices == t.m.notices + if t'.m.failure == t.m.failure then 0 else 1
  {
    AlwaysGood(events);
  }

  /** A monitor on watch has its expiry timer armed at its limit, and until finish is called its renewals too. */
  predicate OnWatch(t: Trace) {
    t.begun && !t.m.closed && t.m.failure.None? ==>
      && t.m.failAt.Some? && t.m.expiry == t.m.failAt
      && (t.m.renewTimer <==> !t.m.finishing)
  }

  lemma WatchKept(t: Trace, e: Event, now: int)
    requires Good(t) && OnWatch(t)
    ensures OnWatch(Happen(t, e, now))
  {
    match e {
      case Opened(_) =>
      case RenewTimer =>
      case RenewalDone(_) =>
      case ExpiryTimer =>
      case FinishCalled(_) =>
      case FinishResumed(_) =>
    }
  }

  /** After every sequence of events a started monitor that is open and has reported nothing is on watch. */
  lemma {:induction false} AlwaysOnWatch(events: seq<Timed>)
    ensures OnWatch(Play(events))
  {
    if events != [] {
      var n := |events| - 1;
      AlwaysOnWatch(events[..n]);
      AlwaysGood(events[..n]);
      WatchKept(Play(events[..n]), events[n].event, events[n].at);
    }
  }

  /** The renewal timer of a monitor on watch starts one renewal at a time, for two minutes from now. */
  lemma RenewalDecides(events: seq<Timed>, now: int)
    requires Play(events).begun && !Play(events).m.closed && Play(events).m.failure.None? && !Play(events).m.finishing
    ensures var t, t' := Play(events), Happen(Play(events), RenewTimer, now);
            t' == t.(m := t.m.(renewal := if t.m.renewal.Some? then t.m.renewal else Some(now + 120_000)))
  {
    AlwaysOnWatch(events);
  }

  /** Otherwise it starts none. */
  lemma NoRenewalOffWatch(events: seq<Timed>, now: int)
    requires !Play(events).begun || Play(events).m.closed || Play(events).m.failure.Some? || Play(events).m.finishing
    ensures Happen(Play(events), RenewTimer, now) == Play(events)
  {
    AlwaysGood(events);
  }

  /** Exactly the events that move the limit: the start, and a renewal confirmed before the old limit on a monitor on watch. */
  lemma LimitDecides(events: seq<Timed>, e: Event, now: int)
    ensures var t, t' := Play(events), Happen(Play(events), e, now);
            t'.m.failAt ==
              match e
              case Opened(until) => if !t.begun && !t.m.finishing && until > now + 5_000 then Some(until - 5_000) else t.m.failAt
              case RenewalDone(ok) =>
                if ok && t.m.renewal.Some? && !Reached(t.m, now) && t.m.failure.None? && !t.m.closed && !t.m.finishing
                then Some(t.m.renewal.value - 5_000) else t.m.failAt
              case _ => t.m.failAt
  {
    AlwaysGood(events);
  }

  /** A settled renewal is no longer in flight, whatever became of it. */
  lemma RenewalEnds(events: seq<Timed>, ok: bool, now: int)
    ensures Happen(Play(events), RenewalDone(ok), now).m.renewal.None?
  {}

  /**
   * What a call of finish does. On a closed monitor it returns the old answer. On an open one the clock is
   * checked and the renewals stop; it returns at once, with the monitor closed, exactly when no
   * renewal is in flight, and otherwise as soon as that renewal is done or a failure is known.
   */
  lemma FinishDecides(events: seq<Timed>, id: nat, now: int)
    requires id !in Play(events).calls
    ensures var t, t' := Play(events), Happen(Play(events), FinishCalled(id), now);
            && id in t'.calls && t'.m.finishing && !t'.m.renewTimer
            && (t'.calls[id].result.Some? <==> t.m.closed || t.m.renewal.None?)
            && (t'.calls[id].result.Some? ==> t'.calls[id].result == Some(t'.m.failure) && t'.m.closed)
            && (t.m.closed ==> t'.m == t.m)
            && (t'.m.closed ==> t'.m.expiry.None?)
  {
    AlwaysGood(events);
    AlwaysClosedQuiet(events);
  }

  lemma ResumeDecides(events: seq<Timed>, id: nat, now: int)
    requires id in Play(events).calls && Play(events).calls[id].result.None?
    ensures var t, t' := Play(events), Happen(Play(events), FinishResumed(id), now);
            && id in t'.calls
            && (t'.calls[id].result.Some? <==> t.m.renewal.None? || t.m.failure.Some?)
            && (t'.calls[id].result.Some? ==> t'.calls[id].result == Some(t.m.failure) && t'.m.closed && t'.m.expiry.None?)
  {}

  /** Finishing stops the renewals for good. */
  lemma {:induction false} AlwaysClosedQuiet(events: seq<Timed>)
    ensures Play(events).m.finishing ==> !Play(events).m.renewTimer
    ensures Play(events).m.closed ==> Play(events).m.finishing && Play(events).m.expiry.None?
  {
    if events != [] {
      AlwaysClosedQuiet(events[..|events| - 1]);
      AlwaysGood(events[..|events| - 1]);
      AlwaysGood(events);
    }
  }
}
