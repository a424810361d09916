/** The invocation lease monitor over an explicit clock (invocationLeaseMonitor.ts). */
module LeaseMonitor {
  import opened Text

  const LEASE_MS := 120_000
  const MARGIN_MS := 5_000

  datatype Failure = ExpiredBeforeStart | ExpiredBeforeCompletion | RenewedTooLate | NotRenewed | RenewalFailed

  /** `expiry` is the armed expiry timer, `renewal` the deadline of the renewal in flight, `notices` the calls of onFailure. */
  datatype Monitor = Monitor(
    renewal: Option<int>, renewTimer: bool, expiry: Option<int>, failure: Option<Failure>,
    failAt: Option<int>, finishing: bool, closed: bool, notices: nat)

  const NEW := Monitor(None, false, None, None, None, false, false, 0)

  function Fail(m: Monitor, failure: Failure): Monitor {
    if m.failure.Some? || m.closed then m else m.(failure := Some(failure), notices := m.notices + 1)
  }

  function FailIfExpired(m: Monitor, now: int, failure: Failure): Monitor {
    if m.failAt.Some? && now >= m.failAt.value then Fail(m, failure) else m
  }

  function Arm(m: Monitor, until: int): Monitor {
    m.(failAt := Some(until - MARGIN_MS), expiry := Some(until - MARGIN_MS))
  }

  function Start(m: Monitor, until: int, now: int): Monitor {
    if until - MARGIN_MS <= now then Fail(m, ExpiredBeforeStart)
    else Arm(m, until).(renewTimer := true)
  }

  function Renew(m: Monitor, now: int): Monitor {
    if m.finishing || m.closed || m.failure.Some? || m.renewal.Some? then m else m.(renewal := Some(now + LEASE_MS))
  }

  /** The renewal's promise settles; its three handlers run before anything else can. */
  function Settle(m: Monitor, ok: bool, now: int): Monitor {
    if m.renewal.None? then m
    else if !ok then Fail(m, RenewalFailed).(renewal := None)
    else
      var checked := FailIfExpired(m, now, RenewedTooLate);
      var armed := if !checked.finishing && !checked.closed && checked.failure.None? then Arm(checked, m.renewal.value) else checked;
      armed.(renewal := None)
  }

  function Expire(m: Monitor): Monitor {
    if m.expiry.None? then m
    else Fail(m.(expiry := None), NotRenewed)
  }

  /** finish up to its await; without a renewal in flight it runs to its end. */
  function BeginFinish(m: Monitor, now: int): Monitor {
    if m.closed then m
    else
      var checked := FailIfExpired(m, now, ExpiredBeforeCompletion)
                     .(finishing := true, renewTimer := false);
      if checked.renewal.Some? then checked else EndFinish(checked)
  }

  function EndFinish(m: Monitor): Monitor {
    m.(closed := true, expiry := None)
  }

  // ---------------------------------------------------------------- the imperative form

  class InvocationLeaseMonitor {
    var renewal: Option<int>
    var renewTimer: bool
    var expiry: Option<int>
    var failure: Option<Failure>
    var failAt: Option<int>
    var finishing: bool
    var closed: bool
    var notices: nat

    function View(): Monitor reads this {
      Monitor(renewal, renewTimer, expiry, failure, failAt, finishing, closed, notices)
    }

    constructor ()
      ensures View() == NEW
    {
      renewal, renewTimer, expiry, failure := None, false, None, None;
      failAt, finishing, closed, notices := None, false, false, 0;
    }

    method Report(cause: Failure)
      modifies this
      ensures View() == Fail(old(View()), cause)
    {
      if failure.Some? || closed { return; }
      failure := Some(cause);
      notices := notices + 1;
    }

    method CheckExpiry(now: int, cause: Failure)
      modifies this
      ensures View() == FailIfExpired(old(View()), now, cause)
    {
      if failAt.Some? && now >= failAt.value { Report(cause); }
    }

    method ArmExpiry(until: int)
      modifies this
      ensures View() == Arm(old(View()), until)
    {
      failAt := Some(until - MARGIN_MS);
      expiry := failAt;
    }

    method Open(until: int, now: int)
      modifies this
      ensures View() == Start(old(View()), until, now)
    {
      if until - MARGIN_MS <= now {
        Report(ExpiredBeforeStart);
        return;
      }
      ArmExpiry(until);
      renewTimer := true;
    }

    method RenewalTick(now: int)
      modifies this
      ensures View() == Renew(old(View()), now)
    {
      if finishing || closed || failure.Some? || renewal.Some? { return; }
      renewal := Some(now + LEASE_MS);
    }

    method RenewalSettled(ok: bool, now: int)
      modifies this
      ensures View() == Settle(old(View()), ok, now)
    {
      if renewal.None? { return; }
      var until := renewal.value;
      if ok {
        CheckExpiry(now, RenewedTooLate);
        if !finishing && !closed && failure.None? { ArmExpiry(until); }
      } else {
        Report(RenewalFailed);
      }
      renewal := None;
    }

    method ExpiryTick()
      modifies this
      ensures View() == Expire(old(View()))
    {
      if expiry.None? { return; }
      expiry := None;
      Report(NotRenewed);
    }

    /** Returns whether the caller must await the renewal in flight. */
    method Finish(now: int) returns (awaits: bool)
      modifies this
      ensures View() == BeginFinish(old(View()), now)
      ensures awaits <==> !old(closed) && old(renewal).Some?
    {
      if closed { return false; }
      CheckExpiry(now, ExpiredBeforeCompletion);
      finishing := true;
      renewTimer := false;
      if renewal.Some? { return true; }
      Close();
      awaits := false;
    }

    method Close()
      modifies this
      ensures View() == EndFinish(old(View()))
    {
      closed := true;
      expiry := None;
    }
  }

  // ---------------------------------------------------------------- timed runs

  datatype Event =
    | Opened(until: int)
    | RenewTimer
    | RenewalDone(ok: bool)
    | ExpiryTimer
    | FinishCalled(call: nat)
    | FinishResumed(call: nat)

  datatype Timed = Timed(event: Event, at: int)

  /**
   * One call of finish: when it was made and against which limit, when the renewal it awaited was
   * done, and what it returned. `reopened` marks a call on a monitor that was closed already.
   */
  datatype Call = Call(
    at: int, limit: Option<int>, reopened: bool, awaits: bool, renewedAt: Option<int>, result: Option<Option<Failure>>)

  /** `confirmed` holds the deadlines known to be persisted; `begun` that start was called, which happens once and before finish. */
  datatype Trace = Trace(m: Monitor, calls: map<nat, Call>, confirmed: set<int>, begun: bool)

  const BEGIN := Trace(NEW, map[], {}, false)

  predicate Waiting(c: Call) {
    c.result.None?
  }

  /** The awaited race is over: the renewal is done or a failure is known. */
  predicate MayResume(t: Trace, id: nat) {
    id in t.calls && Waiting(t.calls[id]) && (t.m.renewal.None? || t.m.failure.Some?)
  }

  function NewCall(m: Monitor, now: int): Call {
    var after := BeginFinish(m, now);
    Call(now, m.failAt, m.closed, !m.closed && m.renewal.Some?, None,
         if !m.closed && m.renewal.Some? then None else Some(after.failure))
  }

  function Happen(t: Trace, e: Event, now: int): Trace {
    match e
    case Opened(until) =>
      if t.begun || t.m.finishing then t
      else t.(m := Start(t.m, until, now), begun := true,
              confirmed := if until - MARGIN_MS <= now then t.confirmed else t.confirmed + {until})
    case RenewTimer => if t.m.renewTimer then t.(m := Renew(t.m, now)) else t
    case RenewalDone(ok) =>
      if t.m.renewal.None? then t
      else t.(m := Settle(t.m, ok, now),
              confirmed := if ok then t.confirmed + {t.m.renewal.value} else t.confirmed,
              calls := map id | id in t.calls ::
                if Waiting(t.calls[id]) && t.calls[id].renewedAt.None? then t.calls[id].(renewedAt := Some(now)) else t.calls[id])
    case ExpiryTimer => t.(m := Expire(t.m))
    case FinishCalled(id) =>
      if id in t.calls then t else t.(m := BeginFinish(t.m, now), calls := t.calls[id := NewCall(t.m, now)])
    case FinishResumed(id) =>
      if !MayResume(t, id) then t
      else t.(m := EndFinish(t.m), calls := t.calls[id := t.calls[id].(result := Some(t.m.failure))])
  }

  function Play(events: seq<Timed>): Trace {
    if events == [] then BEGIN
    else var last := events[|events| - 1]; Happen(Play(events[..|events| - 1]), last.event, last.at)
  }

  // ---------------------------------------------------------------- what every run keeps

  predicate Before(now: int, limit: Option<int>) {
    limit.Some? ==> now < limit.value
  }

  /** A call that reports no failure was in time, both when it was made and when its renewal was done. */
  predicate InTime(c: Call) {
    c.result == Some(None) && !c.reopened ==>
      Before(c.at, c.limit) && (c.awaits ==> c.renewedAt.Some? && Before(c.renewedAt.value, c.limit))
  }

  predicate GoodCall(m: Monitor, c: Call) {
    && InTime(c)
    && (Waiting(c) ==>
          && m.finishing && c.awaits && !c.reopened && c.limit == m.failAt
          && (!Before(c.at, c.limit) ==> m.failure.Some?)
          && (c.renewedAt.Some? ==> m.renewal.None? && (!Before(c.renewedAt.value, c.limit) ==> m.failure.Some?))
          && (c.renewedAt.None? ==> m.renewal.Some? && (m.closed ==> m.failure.Some?)))
  }

  /** A call is measured against a deadline known to be persisted, minus the margin. */
  predicate Measured(t: Trace, c: Call) {
    && t.m.finishing
    && (c.limit.Some? ==> c.limit.value + MARGIN_MS in t.confirmed)
    && (t.begun && c.result == Some(None) && !c.reopened ==> c.limit.Some?)
  }

  /** Every call that has returned got the monitor's final answer. */
  predicate Answered(t: Trace, c: Call) {
    c.result.Some? ==> t.m.closed && c.result == Some(t.m.failure)
  }

  /** The call ran its own checks, on a monitor still open. */
  predicate Original(t: Trace, id: nat) {
    id in t.calls && !t.calls[id].reopened && t.calls[id].result.Some?
  }

  predicate GoodMonitor(t: Trace) {
    && t.m.notices == (if t.m.failure.Some? then 1 else 0)
    && (t.m.failAt.Some? ==> t.m.failAt.value + MARGIN_MS in t.confirmed)
    && (t.m.closed ==> t.m.expiry.None? && t.m.finishing)
    && (t.begun && t.m.failure.None? ==> t.m.failAt.Some?)
    && (t.m.failAt.Some? || t.m.renewTimer || t.m.renewal.Some? ==> t.begun)
  }

  ghost predicate Good(t: Trace) {
    && GoodMonitor(t)
    && (forall id :: id in t.calls ==> GoodCall(t.m, t.calls[id]) && Measured(t, t.calls[id]) && Answered(t, t.calls[id]))
    && (t.m.closed ==> exists id :: Original(t, id))
  }

  lemma MonitorKept(t: Trace, e: Event, now: int)
    requires Good(t)
    ensures GoodMonitor(Happen(t, e, now))
  {
    match e {
      case Opened(_) =>
      case RenewTimer =>
      case RenewalDone(_) =>
      case ExpiryTimer =>
      case FinishCalled(_) =>
      case FinishResumed(id) => assert MayResume(t, id) ==> GoodCall(t.m, t.calls[id]);
    }
  }

  /** An event's effect on a call already made: the renewal it awaits may be done, or it may return. */
  lemma CallStays(t: Trace, e: Event, now: int, id: nat)
    requires id in t.calls
    ensures id in Happen(t, e, now).calls
    ensures var c, c' := t.calls[id], Happen(t, e, now).calls[id];
            c'.at == c.at && c'.limit == c.limit && c'.reopened == c.reopened && c'.awaits == c.awaits
            && (c.result.Some? ==> c' == c)
  {
    match e {
      case Opened(_) =>
      case RenewTimer =>
      case RenewalDone(_) =>
      case ExpiryTimer =>
      case FinishCalled(_) =>
      case FinishResumed(_) =>
    }
  }

  lemma CallGoodKept(t: Trace, e: Event, now: int, id: nat)
    requires GoodMonitor(t) && id in t.calls && GoodCall(t.m, t.calls[id]) && Measured(t, t.calls[id])
    ensures id in Happen(t, e, now).calls && GoodCall(Happen(t, e, now).m, Happen(t, e, now).calls[id])
  {
    match e {
      case Opened(_) =>
      case RenewTimer =>
      case RenewalDone(_) =>
      case ExpiryTimer =>
      case FinishCalled(_) =>
      case FinishResumed(_) =>
    }
  }

  lemma CallMeasuredKept(t: Trace, e: Event, now: int, id: nat)
    requires GoodMonitor(t) && id in t.calls && GoodCall(t.m, t.calls[id]) && Measured(t, t.calls[id])
    ensures id in Happen(t, e, now).calls && Measured(Happen(t, e, now), Happen(t, e, now).calls[id])
  {
    CallStays(t, e, now, id);
    match e {
      case Opened(_) =>
      case RenewTimer =>
      case RenewalDone(_) =>
      case ExpiryTimer =>
      case FinishCalled(_) =>
      case FinishResumed(_) =>
    }
  }

  lemma CallAnsweredKept(t: Trace, e: Event, now: int, id: nat)
    requires id in t.calls && Answered(t, t.calls[id])
    ensures id in Happen(t, e, now).calls && Answered(Happen(t, e, now), Happen(t, e, now).calls[id])
    ensures Original(t, id) ==> Original(Happen(t, e, now), id)
  {
    CallStays(t, e, now, id);
    EventStands(t, e, now);
    match e {
      case Opened(_) =>
      case RenewTimer =>
      case RenewalDone(_) =>
      case ExpiryTimer =>
      case FinishCalled(_) =>
      case FinishResumed(_) =>
    }
  }

  lemma CallKept(t: Trace, e: Event, now: int, id: nat)
    requires GoodMonitor(t) && id in t.calls && GoodCall(t.m, t.calls[id]) && Measured(t, t.calls[id]) && Answered(t, t.calls[id])
    ensures id in Happen(t, e, now).calls && GoodCall(Happen(t, e, now).m, Happen(t, e, now).calls[id])
    ensures Measured(Happen(t, e, now), Happen(t, e, now).calls[id]) && Answered(Happen(t, e, now), Happen(t, e, now).calls[id])
    ensures Original(t, id) ==> Original(Happen(t, e, now), id)
  {
    CallGoodKept(t, e, now, id);
    CallMeasuredKept(t, e, now, id);
    CallAnsweredKept(t, e, now, id);
  }

  lemma NewCallGood(t: Trace, now: int, id: nat)
    requires GoodMonitor(t) && id !in t.calls
    ensures GoodCall(BeginFinish(t.m, now), NewCall(t.m, now))
    ensures Measured(Happen(t, FinishCalled(id), now), NewCall(t.m, now))
    ensures Answered(Happen(t, FinishCalled(id), now), NewCall(t.m, now))
  {}

  /** A monitor is closed by a call that ran its own checks. */
  lemma ClosedByOriginal(t: Trace, e: Event, now: int)
    requires Good(t) && Happen(t, e, now).m.closed
    ensures exists id :: Original(Happen(t, e, now), id)
  {
    var t' := Happen(t, e, now);
    if t.m.closed {
      var id :| Original(t, id);
      CallKept(t, e, now, id);
    } else if e.FinishCalled? {
      assert Original(t', e.call);
    } else if e.FinishResumed? {
      assert GoodCall(t.m, t.calls[e.call]);
      assert Original(t', e.call);
    }
  }

  lemma EventGood(t: Trace, e: Event, now: int)
    requires Good(t)
    ensures Good(Happen(t, e, now))
  {
    var t' := Happen(t, e, now);
    MonitorKept(t, e, now);
    forall id | id in t'.calls ensures GoodCall(t'.m, t'.calls[id]) && Measured(t', t'.calls[id]) && Answered(t', t'.calls[id]) {
      if id in t.calls { CallKept(t, e, now, id); } else { NewCallGood(t, now, id); }
    }
    if t'.m.closed { ClosedByOriginal(t, e, now); }
  }

  lemma {:induction false} AlwaysGood(events: seq<Timed>)
    ensures Good(Play(events))
  {
    if events != [] {
      var n := |events| - 1;
      AlwaysGood(events[..n]);
      EventGood(Play(events[..n]), events[n].event, events[n].at);
    }
  }

  /** The call was made, and saw the renewal it awaited completed, more than the margin before this deadline. */
  predicate InTimeFor(c: Call, deadline: int) {
    c.at + MARGIN_MS < deadline && (c.awaits ==> c.renewedAt.Some? && c.renewedAt.value + MARGIN_MS < deadline)
  }

  lemma OriginalIsInTime(t: Trace, id: nat)
    requires Good(t) && t.begun && Original(t, id) && t.calls[id].result == Some(None)
    ensures exists deadline :: deadline in t.confirmed && InTimeFor(t.calls[id], deadline)
  {
    var c := t.calls[id];
    assert GoodCall(t.m, c) && Measured(t, c);
    var deadline := c.limit.value + MARGIN_MS;
    assert deadline in t.confirmed && InTimeFor(c, deadline);
  }

  /**
   * In every timed run of a started monitor, late timers included: a finish() on an open monitor that
   * reports no failure was called, and saw its awaited renewal completed, more than the margin before
   * a deadline known to be persisted; and onFailure was called at most once.
   */
  lemma FinishIsInTime(events: seq<Timed>, id: nat)
    requires Play(events).begun && id in Play(events).calls
    ensures Play(events).m.notices <= 1
    ensures var c := Play(events).calls[id];
            c.result == Some(None) && !c.reopened ==>
              exists deadline :: deadline in Play(events).confirmed && InTimeFor(c, deadline)
  {
    AlwaysGood(events);
    var c := Play(events).calls[id];
    if c.result == Some(None) && !c.reopened { OriginalIsInTime(Play(events), id); }
  }

  /**
   * However many finish() calls a run makes, and however late, they all return one answer; and if that
   * is no failure, a call that ran its own checks was in time for it.
   */
  lemma OneAnswer(events: seq<Timed>, a: nat, b: nat)
    requires Play(events).begun && a in Play(events).calls && b in Play(events).calls
    requires Play(events).calls[a].result.Some? && Play(events).calls[b].result.Some?
    ensures Play(events).calls[a].result == Play(events).calls[b].result
    ensures Play(events).calls[a].result == Some(None) ==>
              exists id, deadline :: Original(Play(events), id) && deadline in Play(events).confirmed
                                     && InTimeFor(Play(events).calls[id], deadline)
  {
    AlwaysGood(events);
    var t := Play(events);
    assert Answered(t, t.calls[a]) && Answered(t, t.calls[b]);
    if t.calls[a].result == Some(None) {
      var id :| Original(t, id);
      assert Answered(t, t.calls[id]);
      OriginalIsInTime(t, id);
      var deadline :| deadline in t.confirmed && InTimeFor(t.calls[id], deadline);
    }
  }

  /** The limit moves only by a renewal confirmed before the old limit, never after expiry, failure or finish. */
  lemma ExpiredNeverRearmed(events: seq<Timed>, e: Event, now: int)
    ensures var t, t' := Play(events), Happen(Play(events), e, now);
            t.m.failAt.Some? && t'.m.failAt != t.m.failAt ==>
              e == RenewalDone(true) && now < t.m.failAt.value && t.m.failure.None? && !t.m.finishing && !t.m.closed
              && t.m.renewal.Some? && t'.m.failAt == Some(t.m.renewal.value - MARGIN_MS)
  {
    AlwaysGood(events);
  }

  /** What has been reported stays: a failure with its one notice, and the answer of a closed monitor. */
  predicate Stands(m: Monitor, m': Monitor) {
    && (m.failure.Some? ==> m'.failure == m.failure && m'.notices == m.notices)
    && (m.closed ==> m'.closed && m'.failure == m.failure && m'.notices == m.notices)
  }

  lemma EventStands(t: Trace, e: Event, now: int)
    ensures Stands(t.m, Happen(t, e, now).m)
  {
    match e {
      case Opened(_) =>
      case RenewTimer =>
      case RenewalDone(_) =>
      case ExpiryTimer =>
      case FinishCalled(_) =>
      case FinishResumed(_) =>
    }
  }

  /** Over every timed run: once failed or closed, no later event changes the failure or reports another one. */
  lemma {:induction false} FailureIsFinal(events: seq<Timed>, i: nat)
    requires i <= |events|
    ensures Stands(Play(events[..i]).m, Play(events).m)
  {
    if i == |events| {
      assert events[..i] == events;
    } else {
      var n := |events| - 1;
      FailureIsFinal(events[..n], i);
      assert events[..n][..i] == events[..i];
      EventStands(Play(events[..n]), events[n].event, events[n].at);
    }
  }
}
