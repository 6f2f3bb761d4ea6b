/** The circuit breaker of each credential scope and the calls that occupy it. */
module ProviderState {
  import opened Wrappers

  type Scope = nat
  type CallId = nat

  /** openUntil 0 is a closed circuit; a positive value is open, and due for a probe once it lies in the past. */
  datatype Health = Health(failures: nat, openUntil: nat, blocked: bool, probe: Option<CallId>, probeUntil: nat)

  datatype Status = RESERVED | ABANDONED | FINISHED

  /** reported: the call's result has been recorded; later reports are repeats or refused. */
  datatype Call = Call(scope: Scope, status: Status, expiresAt: nat, reported: bool)

  datatype Profile = Profile(scope: Scope, mock: bool, failureThreshold: nat, circuitCooldownMs: nat)

  datatype Book = Book(health: map<Scope, Health>, calls: map<CallId, Call>)

  datatype Error =
    | API_ERROR | AUTH_ERROR | RATE_LIMIT | TIMEOUT | FORMAT_ERROR | CONTEXT_LIMIT | CANCELLED | CONFIG_ERROR
    | OUTPUT_TRUNCATED | EMPTY_RESPONSE | OUTPUT_TOO_LARGE | RESPONSE_REFUSED | DELIVERY_UNKNOWN

  datatype Answer = Done | PROVIDER_BLOCKED | PROVIDER_COOLDOWN | PROVIDER_BUSY | PROBE_INFLIGHT | CALL_KNOWN

  const Sound: Health := Health(0, 0, false, None, 0)

  function Max(a: nat, b: nat): nat { if a < b then b else a }

  function Min(a: nat, b: nat): nat { if a < b then a else b }

  function HealthOf(b: Book, scope: Scope): Health { if scope in b.health then b.health[scope] else Sound }

  predicate ProbeRuns(h: Health, now: nat) { h.probe.Some? && h.probeUntil > now }

  predicate MayClaim(h: Health, agentFailures: nat, maxRetries: nat, now: nat) {
    !h.blocked && h.openUntil <= now && !ProbeRuns(h, now) && (agentFailures <= maxRetries || h.openUntil > 0)
  }

  /** Calls that the provider may still be working on. */
  function Active(b: Book, scope: Scope, now: nat): set<CallId> {
    set c | c in b.calls && b.calls[c].scope == scope && b.calls[c].status != FINISHED && b.calls[c].expiresAt > now
  }

  /** The reservation and the row of the call that it admits. */
  function Reserve(b: Book, p: Profile, call: CallId, deadline: nat, cap: nat, now: nat): (Book, Answer) {
    var h := HealthOf(b, p.scope);
    if h.blocked then (b, PROVIDER_BLOCKED)
    else if h.openUntil > now || ProbeRuns(h, now) then (b, PROVIDER_COOLDOWN)
    else if |Active(b, p.scope, now)| >= cap then (b, PROVIDER_BUSY)
    else if call in b.calls then (b, CALL_KNOWN)
    else (Book(b.health[p.scope := if h.openUntil > 0 then h.(probe := Some(call), probeUntil := deadline) else h],
               b.calls[call := Call(p.scope, RESERVED, deadline, false)]), Done)
  }

  predicate Counts(e: Error) { e in {API_ERROR, AUTH_ERROR, RATE_LIMIT, TIMEOUT, CONFIG_ERROR, DELIVERY_UNKNOWN} }

  function Succeeded(h: Health, call: CallId): Health { if h.probe == Some(call) || (h.openUntil == 0 && !h.blocked) then Sound else h }

  function Failed(h: Health, p: Profile, e: Error, retryAfterMs: nat, now: nat): Health {
    var failures, permanent := h.failures + 1, e == AUTH_ERROR || e == CONFIG_ERROR;
    var trip := permanent || e == RATE_LIMIT || failures >= p.failureThreshold || h.openUntil > 0;
    var wait := Max(p.circuitCooldownMs, Min(86400000, retryAfterMs));
    Health(failures, if trip then Max(h.openUntil, now + wait) else 0, permanent || h.blocked, None, 0)
  }

  function Judged(h: Health, p: Profile, call: CallId, e: Option<Error>, retryAfterMs: nat, now: nat): Health {
    if p.mock then h
    else if e.None? then Succeeded(h, call)
    else if Counts(e.value) then Failed(h, p, e.value, retryAfterMs, now) else h
  }

  /** The end of a call. The circuit of the owner's present profile p hears of it, but only while the run that made the call is live. */
  function Finish(b: Book, p: Profile, call: CallId, e: Option<Error>, retryAfterMs: nat, live: bool, now: nat): Book {
    if call !in b.calls || b.calls[call].reported then b
    else
      var status := if e == Some(TIMEOUT) || e == Some(CANCELLED) || e == Some(DELIVERY_UNKNOWN) then ABANDONED else FINISHED;
      Book(if live then b.health[p.scope := Judged(HealthOf(b, p.scope), p, call, e, retryAfterMs, now)] else b.health,
           b.calls[call := b.calls[call].(status := status, reported := true)])
  }

  /** The calls of a run that stops keep their places until their deadlines. */
  function Abandon(b: Book, calls: set<CallId>): Book {
    b.(calls := map c | c in b.calls :: if c in calls && b.calls[c].status == RESERVED then b.calls[c].(status := ABANDONED) else b.calls[c])
  }

  /** The failure report of a live run. Its calls are abandoned, and a wrong configuration counts against the scope whether or not the run
      has ever made a call. */
  function FailRun(b: Book, p: Profile, calls: set<CallId>, misconfigured: bool, now: nat): Book {
    var after := Abandon(b, calls);
    if misconfigured && !p.mock then after.(health := b.health[p.scope := Failed(HealthOf(b, p.scope), p, CONFIG_ERROR, 0, now)]) else after
  }

  function RequestProbe(b: Book, p: Profile, now: nat): (Book, Answer) {
    var h := HealthOf(b, p.scope);
    if ProbeRuns(h, now) then (b, PROBE_INFLIGHT)
    else (b.(health := b.health[p.scope := h.(blocked := false, openUntil := now, probe := None, probeUntil := 0)]), Done)
  }

  // ---------------------------------------------------------------- histories

  datatype Event =
    | Reserving(p: Profile, call: CallId, deadline: nat, cap: nat)
    | Finishing(p: Profile, call: CallId, error: Option<Error>, retryAfterMs: nat, live: bool)
    | Abandoning(calls: set<CallId>)
    | Failing(p: Profile, calls: set<CallId>, misconfigured: bool)
    | Probing(p: Profile)
    | Waiting

  /** One event at one instant; the clock never runs backwards. */
  datatype Timed = Timed(event: Event, now: nat)

  function Next(b: Book, t: Timed): Book {
    match t.event
    case Reserving(p, call, deadline, cap) => Reserve(b, p, call, deadline, cap, t.now).0
    case Finishing(p, call, e, retryAfterMs, live) => Finish(b, p, call, e, retryAfterMs, live, t.now)
    case Abandoning(calls) => Abandon(b, calls)
    case Failing(p, calls, misconfigured) => FailRun(b, p, calls, misconfigured, t.now)
    case Probing(p) => RequestProbe(b, p, t.now).0
    case Waiting => b
  }

  predicate Forward(events: seq<Timed>, since: nat) {
    (forall i :: 0 <= i < |events| ==> since <= events[i].now) && forall i, j :: 0 <= i < j < |events| ==> events[i].now <= events[j].now
  }

  /** No reservation of the event is made under a larger cap than these. */
  predicate Within(e: Event, caps: Scope -> nat) { e.Reserving? ==> e.cap <= caps(e.p.scope) }

  /** The calls of every scope stay within these caps, a blocked scope has no probe, and a finished call has been reported. */
  ghost predicate Safe(b: Book, caps: Scope -> nat, now: nat) {
    && (forall c :: c in b.calls && b.calls[c].status == FINISHED ==> b.calls[c].reported)
    && (forall s :: |Active(b, s, now)| <= caps(s))
    && (forall s :: s in b.health && b.health[s].blocked ==> b.health[s].probe.None?)
  }

  lemma Fewer(b: Book, b': Book, s: Scope, now: nat, later: nat, cap: nat)
    requires now <= later && |Active(b, s, now)| <= cap
    requires forall c :: c in b'.calls && b'.calls[c].status != FINISHED ==> c in b.calls && b.calls[c].status != FINISHED && b.calls[c].scope == b'.calls[c].scope && b.calls[c].expiresAt == b'.calls[c].expiresAt
    ensures |Active(b', s, later)| <= cap
  {
    assert Active(b, s, now) == Active(b', s, later) + (Active(b, s, now) - Active(b', s, later));
  }

  /** A grant leaves the scope within the cap it was made under, which may differ from one reservation to the next. */
  lemma GrantFits(b: Book, p: Profile, call: CallId, deadline: nat, cap: nat, now: nat)
    requires Reserve(b, p, call, deadline, cap, now).1 == Done
    ensures |Active(Reserve(b, p, call, deadline, cap, now).0, p.scope, now)| <= cap
  {
    hide Active;
    OneMoreActive(b, Reserve(b, p, call, deadline, cap, now).0, p.scope, call, deadline, now, p.scope);
  }

  lemma ReserveKeepsCap(b: Book, p: Profile, call: CallId, deadline: nat, cap: nat, caps: Scope -> nat, now: nat, s: Scope)
    requires cap <= caps(p.scope) && |Active(b, s, now)| <= caps(s)
    ensures |Active(Reserve(b, p, call, deadline, cap, now).0, s, now)| <= caps(s)
  {
    hide Active;
    if Reserve(b, p, call, deadline, cap, now).1 == Done {
      GrantFits(b, p, call, deadline, cap, now);
      OneMoreActive(b, Reserve(b, p, call, deadline, cap, now).0, p.scope, call, deadline, now, s);
    }
  }

  lemma OneMoreActive(b: Book, b': Book, scope: Scope, call: CallId, deadline: nat, now: nat, s: Scope)
    requires call !in b.calls && b'.calls == b.calls[call := Call(scope, RESERVED, deadline, false)]
    ensures s != scope ==> Active(b', s, now) == Active(b, s, now)
    ensures s == scope ==> |Active(b', s, now)| <= |Active(b, s, now)| + 1
  {
    if s == scope && deadline > now {
      assert Active(b', s, now) == Active(b, s, now) + {call};
    } else {
      assert Active(b', s, now) == Active(b, s, now);
    }
  }

  lemma NextIsSafe(b: Book, caps: Scope -> nat, since: nat, t: Timed)
    requires Safe(b, caps, since) && since <= t.now && Within(t.event, caps)
    ensures Safe(Next(b, t), caps, t.now)
  {
    hide Active, Failed;
    var b' := Next(b, t);
    forall s ensures |Active(b, s, t.now)| <= caps(s) { Fewer(b, b, s, since, t.now, caps(s)); }
    forall s ensures |Active(b', s, t.now)| <= caps(s) {
      if t.event.Reserving? { ReserveKeepsCap(b, t.event.p, t.event.call, t.event.deadline, t.event.cap, caps, t.now, s); }
      else { Shrinks(b, t); Fewer(b, b', s, t.now, t.now, caps(s)); }
    }
    if t.event.Failing? { FailureForgets(HealthOf(b, t.event.p.scope), t.event.p, t.now); }
    if t.event.Finishing? { JudgedIsSafe(HealthOf(b, t.event.p.scope), t.event.p, t.event.call, t.event.error, t.event.retryAfterMs, t.now); }
  }

  lemma FailureForgets(h: Health, p: Profile, now: nat)
    ensures Failed(h, p, CONFIG_ERROR, 0, now).probe.None? && Failed(h, p, CONFIG_ERROR, 0, now).blocked
  {
  }

  /** Only a reservation adds a call; the others at most release one. */
  lemma Shrinks(b: Book, t: Timed)
    requires !t.event.Reserving? && forall c :: c in b.calls && b.calls[c].status == FINISHED ==> b.calls[c].reported
    ensures var b' := Next(b, t);
      forall c :: c in b'.calls && b'.calls[c].status != FINISHED ==>
        c in b.calls && b.calls[c].status != FINISHED && b.calls[c].scope == b'.calls[c].scope && b.calls[c].expiresAt == b'.calls[c].expiresAt
  {
  }

  lemma JudgedIsSafe(h: Health, p: Profile, call: CallId, e: Option<Error>, retryAfterMs: nat, now: nat)
    requires h.blocked ==> h.probe.None?
    ensures var h' := Judged(h, p, call, e, retryAfterMs, now); h'.blocked ==> h'.probe.None?
  {
  }

  function Run(b: Book, events: seq<Timed>): Book
    decreases |events|
  {
    if events == [] then b else Run(Next(b, events[0]), events[1..])
  }

  function End(events: seq<Timed>, since: nat): nat { if events == [] then since else events[|events| - 1].now }

  lemma {:induction false} RunIsSafe(b: Book, caps: Scope -> nat, since: nat, events: seq<Timed>)
    requires Safe(b, caps, since) && Forward(events, since) && forall t :: t in events ==> Within(t.event, caps)
    ensures Safe(Run(b, events), caps, End(events, since))
    decreases |events|
  {
    hide Safe, Next, Within;
    if events != [] {
      assert events[0] in events;
      NextIsSafe(b, caps, since, events[0]);
      RunIsSafe(Next(b, events[0]), caps, events[0].now, events[1..]);
    }
  }

  const Nothing: Book := Book(map[], map[])

  lemma NothingIsSafe(caps: Scope -> nat, now: nat)
    ensures Safe(Nothing, caps, now)
  {
    forall s ensures Active(Nothing, s, now) == {} {}
  }

  /** At every reachable moment the calls of a scope that may still be running are no more than the largest cap under which a
      reservation was made in it, and a blocked scope has no recorded probe whose success could close it. */
  lemma CapHolds(caps: Scope -> nat, events: seq<Timed>)
    requires Forward(events, 0) && forall t :: t in events ==> Within(t.event, caps)
    ensures Safe(Run(Nothing, events), caps, End(events, 0))
  {
    NothingIsSafe(caps, 0);
    RunIsSafe(Nothing, caps, 0, events);
  }

  /** A blocked scope stays blocked through everything but the operator's probe. */
  lemma {:induction false} OnlyTheOperatorUnblocks(b: Book, caps: Scope -> nat, since: nat, events: seq<Timed>, s: Scope)
    requires Safe(b, caps, since) && Forward(events, since) && s in b.health && b.health[s].blocked && forall t :: t in events ==> Within(t.event, caps)
    requires forall t :: t in events ==> !(t.event.Probing? && t.event.p.scope == s)
    ensures s in Run(b, events).health && Run(b, events).health[s].blocked
    decreases |events|
  {
    hide Active, Within;
    if events != [] {
      assert events[0] in events;
      NextIsSafe(b, caps, since, events[0]);
      OnlyTheOperatorUnblocks(Next(b, events[0]), caps, events[0].now, events[1..], s);
    }
  }

  /** An open circuit closes only with the success of the probe that was recorded for it, reported by a live run; no other call,
      success or error, and no operator command closes it. */
  lemma OnlyTheProbeCloses(b: Book, t: Timed, s: Scope)
    requires t.now > 0 && HealthOf(b, s).openUntil > 0 && HealthOf(Next(b, t), s).openUntil == 0
    ensures t.event.Finishing? && t.event.p.scope == s && t.event.error.None? && t.event.live && HealthOf(b, s).probe == Some(t.event.call)
    ensures HealthOf(Next(b, t), s) == Sound
  {
    hide Active;
  }

  /** Nothing is reserved in an open circuit before its time or beside a probe that is still running, and what is reserved when the time
      has come is recorded as the probe. */
  lemma OpenAdmitsOneProbe(b: Book, p: Profile, call: CallId, deadline: nat, cap: nat, now: nat)
    requires HealthOf(b, p.scope).openUntil > 0 && Reserve(b, p, call, deadline, cap, now).1 == Done
    ensures var h, h' := HealthOf(b, p.scope), HealthOf(Reserve(b, p, call, deadline, cap, now).0, p.scope);
      && !h.blocked && h.openUntil <= now && !ProbeRuns(h, now)
      && h'.probe == Some(call) && h'.probeUntil == deadline && (deadline > now ==> ProbeRuns(h', now))
    ensures forall other, until, later :: now <= later < deadline ==> Reserve(Reserve(b, p, call, deadline, cap, now).0, p, other, until, cap, later).1 == PROVIDER_COOLDOWN
  {
    hide Active;
  }

  /** What a worker is told before it asks: if its agent may claim and the cap has room, the reservation that follows succeeds. */
  lemma ClaimablesAreAdmitted(b: Book, p: Profile, call: CallId, deadline: nat, cap: nat, agentFailures: nat, maxRetries: nat, now: nat)
    requires MayClaim(HealthOf(b, p.scope), agentFailures, maxRetries, now) && |Active(b, p.scope, now)| < cap && call !in b.calls
    ensures Reserve(b, p, call, deadline, cap, now).1 == Done && call in Reserve(b, p, call, deadline, cap, now).0.calls
  {
    hide Active;
  }

  // ---------------------------------------------------------------- one probe at a time

  /** What the circuit hears of a call or a run while the run is live: the first report of a call, if it is a counted error or
      the success of the probe itself, or the failure of a run whose configuration is wrong. */
  predicate Settles(b: Book, e: Event, s: Scope) {
    match e
    case Finishing(p, call, error, _, live) =>
      && p.scope == s && live && !p.mock && call in b.calls && !b.calls[call].reported
      && (if error.Some? then Counts(error.value) else HealthOf(b, s).probe == Some(call))
    case Failing(p, _, misconfigured) => p.scope == s && misconfigured && !p.mock
    case _ => false
  }

  /** Exactly how long an open circuit remembers a running probe: a step forgets it if and only if it is such a report, and no step puts
      another call in its place. */
  lemma ProbeStandsExactly(b: Book, t: Timed, s: Scope)
    requires HealthOf(b, s).openUntil > 0 && ProbeRuns(HealthOf(b, s), t.now)
    ensures var h, h' := HealthOf(b, s), HealthOf(Next(b, t), s);
      && (h'.probe == h.probe && h'.probeUntil == h.probeUntil <==> !Settles(b, t.event, s))
      && (Settles(b, t.event, s) ==> h'.probe.None?)
      && (!Settles(b, t.event, s) ==> h' == h)
  {
    hide Active;
  }

  /** A report that makes the circuit forget the probe without showing that the probe has ended: one of another call, the probe's own report
      that its outcome is unknown, or the failure of a run. */
  predicate Breaks(b: Book, e: Event, s: Scope, probe: CallId) {
    Settles(b, e, s) && (e.Finishing? ==> e.call != probe || e.error == Some(TIMEOUT) || e.error == Some(DELIVERY_UNKNOWN))
  }

  ghost predicate Breach(b: Book, events: seq<Timed>, s: Scope, probe: CallId)
    decreases |events|
  {
    events != [] && (Breaks(b, events[0].event, s, probe) || Breach(Next(b, events[0]), events[1..], s, probe))
  }

  /** A call is admitted in an open circuit while the probe may still be running. */
  predicate Admits(b: Book, t: Timed, s: Scope, probe: CallId) {
    && t.event.Reserving? && t.event.p.scope == s && HealthOf(b, s).openUntil > 0 && probe in Active(b, s, t.now)
    && Reserve(b, t.event.p, t.event.call, t.event.deadline, t.event.cap, t.now).1 == Done
  }

  ghost predicate Second(b: Book, events: seq<Timed>, s: Scope, probe: CallId)
    decreases |events|
  {
    events != [] && (Admits(b, events[0], s, probe) || Second(Next(b, events[0]), events[1..], s, probe))
  }

  /** The open circuit has recorded this call as its probe until the call expires. */
  predicate Watched(b: Book, s: Scope, probe: CallId) {
    && probe in b.calls && b.calls[probe].scope == s
    && HealthOf(b, s).openUntil > 0 && HealthOf(b, s).probe == Some(probe) && HealthOf(b, s).probeUntil == b.calls[probe].expiresAt
  }

  /** The call cannot be running any more. */
  predicate Ended(b: Book, probe: CallId, now: nat) {
    probe in b.calls && (b.calls[probe].expiresAt <= now || (b.calls[probe].status == FINISHED && b.calls[probe].reported))
  }

  /** What a grant in an open circuit leaves. */
  lemma GrantIsWatched(b: Book, t: Timed, s: Scope)
    requires Grants(b, t, s)
    ensures Watched(Next(b, t), s, t.event.call)
  {
    hide Active;
  }

  lemma EndedStays(b: Book, t: Timed, probe: CallId, since: nat)
    requires Ended(b, probe, since) && since <= t.now
    ensures Ended(Next(b, t), probe, t.now)
  {
    hide Active, Failed;
  }

  /** As long as no such report comes, the probe is the recorded one or has ended. */
  lemma WatchedStays(b: Book, t: Timed, s: Scope, probe: CallId)
    requires Watched(b, s, probe) && !Breaks(b, t.event, s, probe)
    ensures Watched(Next(b, t), s, probe) || Ended(Next(b, t), probe, t.now)
  {
    hide Active, Failed;
    if t.now < b.calls[probe].expiresAt { ProbeStandsExactly(b, t, s); }
  }

  lemma EndedIsNotActive(b: Book, s: Scope, probe: CallId, now: nat)
    requires Ended(b, probe, now)
    ensures probe !in Active(b, s, now)
  {
  }

  lemma {:induction false} EndedIsAlone(b: Book, since: nat, events: seq<Timed>, s: Scope, probe: CallId)
    requires Ended(b, probe, since) && Forward(events, since)
    ensures !Second(b, events, s, probe)
    decreases |events|
  {
    hide Next, Active, Ended, Reserve;
    if events != [] {
      EndedLater(b, probe, since, events[0].now);
      EndedIsNotActive(b, s, probe, events[0].now);
      EndedStays(b, events[0], probe, since);
      EndedIsAlone(Next(b, events[0]), events[0].now, events[1..], s, probe);
    }
  }

  lemma EndedLater(b: Book, probe: CallId, since: nat, now: nat)
    requires Ended(b, probe, since) && since <= now
    ensures Ended(b, probe, now)
  {
  }

  lemma WatchedAdmitsNone(b: Book, t: Timed, s: Scope, probe: CallId)
    requires Watched(b, s, probe)
    ensures !Admits(b, t, s, probe)
  {
  }

  lemma {:induction false} WatchedNeedsBreach(b: Book, since: nat, events: seq<Timed>, s: Scope, probe: CallId)
    requires Watched(b, s, probe) && Forward(events, since)
    ensures Second(b, events, s, probe) ==> Breach(b, events, s, probe)
    decreases |events|
  {
    hide Next, Watched, Admits, Breaks, Ended;
    if events != [] && !Breaks(b, events[0].event, s, probe) {
      WatchedAdmitsNone(b, events[0], s, probe);
      WatchedStays(b, events[0], s, probe);
      if Watched(Next(b, events[0]), s, probe) { WatchedNeedsBreach(Next(b, events[0]), events[0].now, events[1..], s, probe); }
      else { EndedIsAlone(Next(b, events[0]), events[0].now, events[1..], s, probe); }
    }
  }

  /** A call is granted in an open circuit, and so becomes its probe. */
  predicate Grants(b: Book, t: Timed, s: Scope) {
    && t.event.Reserving? && t.event.p.scope == s && HealthOf(b, s).openUntil > 0
    && Reserve(b, t.event.p, t.event.call, t.event.deadline, t.event.cap, t.now).1 == Done
  }

  /** In every reachable state and whatever follows: a second call joins a probe that may still be running in an open circuit only after a
      live report of another call, the probe's own report of a timeout or an unknown delivery, or the failure of a run whose configuration
      is wrong has made the circuit forget the probe. */
  lemma SecondNeedsBreach(before: seq<Timed>, t: Timed, events: seq<Timed>, s: Scope)
    requires Forward(before + [t] + events, 0) && t.event.Reserving? && Grants(Run(Nothing, before), t, s)
    ensures var b := Next(Run(Nothing, before), t); Second(b, events, s, t.event.call) ==> Breach(b, events, s, t.event.call)
  {
    hide Next, Grants;
    GrantIsWatched(Run(Nothing, before), t, s);
    var all, n := before + [t] + events, |before|;
    assert all[n] == t && forall i :: 0 <= i < |events| ==> all[n + 1 + i] == events[i];
    WatchedNeedsBreach(Next(Run(Nothing, before), t), t.now, events, s, t.event.call);
  }

  /** The report blocks the scope. */
  predicate Permanent(e: Event) { e.Failing? || (e.Finishing? && (e.error == Some(AUTH_ERROR) || e.error == Some(CONFIG_ERROR))) }

  function Cooldown(e: Event): nat
    requires e.Finishing? || e.Failing?
  {
    Max(e.p.circuitCooldownMs, if e.Finishing? then Min(86400000, e.retryAfterMs) else 0)
  }

  /** The probe has been granted and may still be running. */
  predicate Outstanding(b: Book, s: Scope, probe: CallId, now: nat) {
    probe in b.calls && b.calls[probe].scope == s && b.calls[probe].status != FINISHED && now < b.calls[probe].expiresAt
  }

  /** Conversely, right after such a report about a probe that may still be running, a second call is admitted beside it if and only if the
      scope is not blocked, the cooldown is over, the cap has room, and the probe's deadline has not come. */
  lemma BreachAdmits(b: Book, t: Timed, s: Scope, probe: CallId, q: Profile, second: CallId, deadline: nat, cap: nat, later: nat)
    requires Watched(b, s, probe) && Outstanding(b, s, probe, t.now) && Breaks(b, t.event, s, probe)
    requires q.scope == s && second !in b.calls && t.now <= later
    ensures var after := Next(b, t);
      Admits(after, Timed(Reserving(q, second, deadline, cap), later), s, probe) <==>
        && !HealthOf(b, s).blocked && !Permanent(t.event)
        && Max(HealthOf(b, s).openUntil, t.now + Cooldown(t.event)) <= later < b.calls[probe].expiresAt
        && |Active(after, s, later)| < cap
  {
  }

  lemma BlockedAdmitsNone(b: Book, t: Timed, s: Scope, probe: CallId)
    requires HealthOf(b, s).blocked && HealthOf(b, s).probe.None? && !(t.event.Probing? && t.event.p.scope == s)
    ensures !Admits(b, t, s, probe) && HealthOf(Next(b, t), s).blocked && HealthOf(Next(b, t), s).probe.None?
  {
    hide Active;
  }

  lemma {:induction false} BlockedIsAlone(b: Book, events: seq<Timed>, s: Scope, probe: CallId)
    requires HealthOf(b, s).blocked && HealthOf(b, s).probe.None? && forall t :: t in events ==> !(t.event.Probing? && t.event.p.scope == s)
    ensures !Second(b, events, s, probe) && HealthOf(Run(b, events), s).blocked && HealthOf(Run(b, events), s).probe.None?
    decreases |events|
  {
    hide Next, Admits;
    if events != [] {
      assert events[0] in events;
      BlockedAdmitsNone(b, events[0], s, probe);
      BlockedIsAlone(Next(b, events[0]), events[1..], s, probe);
    }
  }

  /** After a report that blocks the scope, no second call joins the probe before the operator asks for one, however long the history. */
  lemma BlockingNeedsTheOperator(b: Book, t: Timed, events: seq<Timed>, s: Scope, probe: CallId)
    requires Breaks(b, t.event, s, probe) && Permanent(t.event) && forall u :: u in events ==> !(u.event.Probing? && u.event.p.scope == s)
    ensures !Second(Next(b, t), events, s, probe)
    ensures var h := HealthOf(Run(Next(b, t), events), s); h.blocked && h.probe.None?
  {
    hide Active;
    assert HealthOf(Next(b, t), s).blocked && HealthOf(Next(b, t), s).probe.None?;
    BlockedIsAlone(Next(b, t), events, s, probe);
  }

  /** And once the operator has asked, a second call is admitted beside a probe that may still be running, without any cooldown, if and only
      if the cap has room and the probe's deadline has not come. */
  lemma OperatorAdmits(b: Book, p: Profile, now: nat, probe: CallId, q: Profile, second: CallId, deadline: nat, cap: nat, later: nat)
    requires HealthOf(b, p.scope).blocked && HealthOf(b, p.scope).probe.None? && Outstanding(b, p.scope, probe, now)
    requires q.scope == p.scope && second !in b.calls && 0 < now <= later
    ensures var after := Next(b, Timed(Probing(p), now));
      Admits(after, Timed(Reserving(q, second, deadline, cap), later), p.scope, probe) <==> later < b.calls[probe].expiresAt && |Active(after, p.scope, later)| < cap
  {
  }

  // ---------------------------------------------------------------- three histories

  const Small: Profile := Profile(0, false, 1, 10)

  /** Call 3 opens the circuit while call 0 is running, and call 1 is the probe. */
  const Opening: seq<Timed> := [
    Timed(Reserving(Small, 0, 50, 9), 1), Timed(Reserving(Small, 3, 50, 9), 1), Timed(Finishing(Small, 3, Some(API_ERROR), 0, true), 2), Timed(Reserving(Small, 1, 100, 9), 12)]

  const Opened: Book := Book(map[0 := Health(1, 12, false, Some(1), 100)],
                             map[0 := Call(0, RESERVED, 50, false), 3 := Call(0, FINISHED, 50, true), 1 := Call(0, RESERVED, 100, false)])

  lemma OpenedIsReached()
    ensures Run(Nothing, Opening) == Opened && Watched(Opened, 0, 1)
  {
    var one := Book(map[0 := Sound], map[0 := Call(0, RESERVED, 50, false)]);
    var two := Book(map[0 := Sound], map[0 := Call(0, RESERVED, 50, false), 3 := Call(0, RESERVED, 50, false)]);
    var three := Book(map[0 := Health(1, 12, false, None, 0)], map[0 := Call(0, RESERVED, 50, false), 3 := Call(0, FINISHED, 50, true)]);
    assert Active(Nothing, 0, 1) == {};
    assert Next(Nothing, Opening[0]) == one;
    assert Active(one, 0, 1) == {0};
    assert Next(one, Opening[1]) == two;
    assert Next(two, Opening[2]) == three;
    assert Active(three, 0, 12) == {0};
    assert Next(three, Opening[3]) == Opened;
    TwoSteps(Nothing, Opening);
    TwoSteps(two, Opening[2..]);
  }

  lemma TwoSteps(b: Book, events: seq<Timed>)
    requires |events| >= 2
    ensures Run(b, events) == Run(Next(Next(b, events[0]), events[1]), events[2..])
  {
    hide Next;
    assert events[1..][1..] == events[2..];
  }

  lemma LastAdmits(b: Book, events: seq<Timed>, s: Scope, probe: CallId)
    requires events != [] && Admits(Run(b, events[..|events| - 1]), events[|events| - 1], s, probe)
    ensures Second(b, events, s, probe) && Run(b, events) == Next(Run(b, events[..|events| - 1]), events[|events| - 1])
    decreases |events|
  {
    hide Next, Admits;
    if |events| > 1 {
      assert events[1..][..|events| - 2] == events[..|events| - 1][1..];
      LastAdmits(Next(b, events[0]), events[1..], s, probe);
    }
  }

  /** A late error of call 0 lets call 2 join the probe. */
  const LateError: seq<Timed> := [Timed(Finishing(Small, 0, Some(API_ERROR), 0, true), 20), Timed(Reserving(Small, 2, 140, 2), 40)]

  lemma TwoCallsInAnOpenCircuit()
    ensures Second(Run(Nothing, Opening), LateError, 0, 1) && Active(Run(Run(Nothing, Opening), LateError), 0, 40) == {1, 2}
  {
    OpenedIsReached();
    var broken := Next(Opened, LateError[0]);
    assert Active(broken, 0, 40) == {1};
    assert LateError[..1] == [LateError[0]] && Run(Opened, LateError[..1]) == broken;
    LastAdmits(Opened, LateError, 0, 1);
    assert Active(Next(broken, LateError[1]), 0, 40) == {1, 2};
  }

  /** So does the probe's own timeout, which says that the worker gave up and not that the provider did. */
  const GaveUp: seq<Timed> := [Timed(Finishing(Small, 1, Some(TIMEOUT), 0, true), 20), Timed(Reserving(Small, 2, 140, 3), 40)]

  lemma TimeoutAdmitsSecond()
    ensures Second(Run(Nothing, Opening), GaveUp, 0, 1) && Active(Run(Run(Nothing, Opening), GaveUp), 0, 60) == {1, 2}
  {
    OpenedIsReached();
    var broken := Next(Opened, GaveUp[0]);
    assert Active(broken, 0, 40) == {0, 1};
    assert GaveUp[..1] == [GaveUp[0]] && Run(Opened, GaveUp[..1]) == broken;
    LastAdmits(Opened, GaveUp, 0, 1);
    assert Active(Next(broken, GaveUp[1]), 0, 60) == {1, 2};
  }

  /** So does a run that fails without a call because its worker has no key, once the operator has asked for a probe: no call is reported. */
  const NoKey: seq<Timed> := [Timed(Failing(Small, {}, true), 20), Timed(Probing(Small), 30), Timed(Reserving(Small, 2, 140, 3), 40)]

  /** The scope is blocked, then due at once, and call 2 is the new probe. */
  const Asked: Book := Opened.(health := map[0 := Health(2, 30, false, None, 0)])

  lemma Asking()
    ensures Next(Next(Opened, NoKey[0]), NoKey[1]) == Asked
  {
    var failed := Next(Opened, NoKey[0]);
    assert failed.calls == Opened.calls;
    assert failed.health == map[0 := Health(2, 30, true, None, 0)];
    assert Next(failed, NoKey[1]).health == Asked.health;
  }

  lemma Joining()
    ensures Admits(Asked, NoKey[2], 0, 1) && Active(Next(Asked, NoKey[2]), 0, 60) == {1, 2}
    ensures forall c :: c in {1, 2} ==> c in Next(Asked, NoKey[2]).calls && !Next(Asked, NoKey[2]).calls[c].reported
  {
    assert Active(Asked, 0, 40) == {0, 1};
    assert Active(Next(Asked, NoKey[2]), 0, 60) == {1, 2};
  }

  lemma MisconfiguredRunAdmitsSecond()
    ensures var b := Run(Nothing, Opening);
      && Second(b, NoKey, 0, 1) && Active(Run(b, NoKey), 0, 60) == {1, 2}
      && forall c :: c in {1, 2} ==> c in Run(b, NoKey).calls && !Run(b, NoKey).calls[c].reported
  {
    hide Next, Admits, Active;
    OpenedIsReached();
    Asking();
    Joining();
    assert NoKey[..2] == [NoKey[0], NoKey[1]] && NoKey[..2][2..] == [];
    TwoSteps(Opened, NoKey[..2]);
    LastAdmits(Opened, NoKey, 0, 1);
  }

  // ---------------------------------------------------------------- the object

  class Providers {
    var health: map<Scope, Health>
    var calls: map<CallId, Call>

    function Now(): Book
      reads this
    {
      Book(health, calls)
    }

    constructor ()
      ensures Now() == Book(map[], map[])
    {
      health, calls := map[], map[];
    }

    method ReserveCall(p: Profile, call: CallId, deadline: nat, cap: nat, now: nat) returns (answer: Answer)
      modifies this
      ensures (Now(), answer) == Reserve(old(Now()), p, call, deadline, cap, now)
    {
      hide Active;
      var h := HealthOf(Now(), p.scope);
      if h.blocked { return PROVIDER_BLOCKED; }
      if h.openUntil > now || (h.probe.Some? && h.probeUntil > now) { return PROVIDER_COOLDOWN; }
      var active := |Active(Now(), p.scope, now)|;
      if active >= cap { return PROVIDER_BUSY; }
      if call in calls { return CALL_KNOWN; }
      health := health[p.scope := h];
      if h.openUntil > 0 { health := health[p.scope := h.(probe := Some(call), probeUntil := deadline)]; }
      calls := calls[call := Call(p.scope, RESERVED, deadline, false)];
      assert health == old(health)[p.scope := if h.openUntil > 0 then h.(probe := Some(call), probeUntil := deadline) else h];
      answer := Done;
    }

    method FinishCall(p: Profile, call: CallId, e: Option<Error>, retryAfterMs: nat, live: bool, now: nat)
      modifies this
      ensures Now() == Finish(old(Now()), p, call, e, retryAfterMs, live, now)
    {
      if call !in calls || calls[call].reported { return; }
      var unknown := e == Some(TIMEOUT) || e == Some(CANCELLED) || e == Some(DELIVERY_UNKNOWN);
      calls := calls[call := calls[call].(status := if unknown then ABANDONED else FINISHED, reported := true)];
      if live { Report(p, call, e, retryAfterMs, now); }
    }

    /** The calls of a run that stops keep their places. */
    method AbandonCalls(run: set<CallId>)
      modifies this`calls
      ensures Now() == Abandon(old(Now()), run)
    {
      ghost var was := calls;
      var todo := set c | c in calls && c in run && calls[c].status == RESERVED;
      ghost var all := todo;
      while todo != {}
        invariant todo <= all == (set c | c in was && c in run && was[c].status == RESERVED) && calls.Keys == was.Keys
        invariant forall c :: c in was ==> calls[c] == if c in all - todo then was[c].(status := ABANDONED) else was[c]
        decreases todo
      {
        var c :| c in todo;
        todo := todo - {c};
        calls := calls[c := calls[c].(status := ABANDONED)];
      }
      assert calls == Abandon(old(Now()), run).calls;
    }

    /** The failure report of a live run; `run` are its calls. */
    method ReportFailure(p: Profile, run: set<CallId>, misconfigured: bool, now: nat)
      modifies this
      ensures Now() == FailRun(old(Now()), p, run, misconfigured, now)
    {
      hide Failed, Abandon;
      AbandonsOnlyCalls(Now(), run);
      AbandonCalls(run);
      if misconfigured && !p.mock {
        CountsConfiguration(HealthOf(Now(), p.scope), p, now);
        Report(p, 0, Some(CONFIG_ERROR), 0, now);
      }
    }

    method Report(p: Profile, call: CallId, e: Option<Error>, retryAfterMs: nat, now: nat)
      modifies this`health
      ensures health == old(health)[p.scope := Judged(HealthOf(old(Now()), p.scope), p, call, e, retryAfterMs, now)]
    {
      var h := HealthOf(Now(), p.scope);
      health := health[p.scope := h];
      if p.mock { return; }
      if e.None? {
        if h.probe == Some(call) || (h.openUntil == 0 && !h.blocked) { health := health[p.scope := Health(0, 0, false, None, 0)]; }
        return;
      }
      if !Counts(e.value) { return; }
      var failures, permanent := h.failures + 1, e.value == AUTH_ERROR || e.value == CONFIG_ERROR;
      var trip := permanent || e.value == RATE_LIMIT || failures >= p.failureThreshold || h.openUntil > 0;
      var wait := Max(p.circuitCooldownMs, Min(86400000, retryAfterMs));
      health := health[p.scope := Health(failures, if trip then Max(h.openUntil, now + wait) else 0, if permanent then true else h.blocked, None, 0)];
    }

    method AskForProbe(p: Profile, now: nat) returns (answer: Answer)
      modifies this`health
      ensures (Now(), answer) == RequestProbe(old(Now()), p, now)
    {
      var h := HealthOf(Now(), p.scope);
      if h.probe.Some? && h.probeUntil > now { return PROBE_INFLIGHT; }
      health := health[p.scope := h.(blocked := false, openUntil := now, probe := None, probeUntil := 0)];
      answer := Done;
    }
  }

  lemma AbandonsOnlyCalls(b: Book, run: set<CallId>)
    ensures Abandon(b, run).health == b.health
  {
  }

  /** For an error it does not matter which call, if any, it is reported for. */
  lemma CountsConfiguration(h: Health, p: Profile, now: nat)
    requires !p.mock
    ensures forall call :: Judged(h, p, call, Some(CONFIG_ERROR), 0, now) == Failed(h, p, CONFIG_ERROR, 0, now)
  {
  }
}
