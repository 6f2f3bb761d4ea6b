/** Token budgets: every model call reserves an envelope before it is made and is settled once with what it used. */
module Budget {
  import opened Wrappers

  type SessionId = nat
  type Scope = nat
  type RunId = nat

  datatype Policy = Policy(windowMs: nat, maxTokens: Option<nat>, continuous: bool, autoRenew: bool)

  datatype ScopePolicy = ScopePolicy(windowMs: nat, maxCalls: Option<nat>, maxTokens: Option<nat>)

  datatype Stage = Primary | Repair | Lookup

  /** How a call ended: with an answer, with an error, or without anybody knowing whether it was delivered. */
  datatype End = Answered | Failed | Unknown

  /** A call row; its position in the table is its row id. reserved is the envelope, charged what is accounted at present. */
  datatype Call = Call(session: SessionId, scope: Scope, run: RunId, key: nat, stage: Stage, startedAt: nat, expiresAt: nat, reserved: nat, charged: nat,
                       end: Option<End>, resultHash: Option<nat>)

  /** boundary: rows up to it belong to earlier windows. */
  datatype Window = Window(startedAt: nat, endsAt: Option<nat>, boundary: nat)

  datatype Meter = Meter(policy: Option<Policy>, callCount: nat, windowCallStart: nat, window: Option<Window>)

  datatype Book = Book(calls: seq<Call>, sessions: map<SessionId, Meter>)

  datatype Usage = Usage(input: Option<nat>, output: Option<nat>, end: End)

  datatype Reason = BUDGET_WINDOW_EXPIRED | MAX_TOKENS | SCOPE_MAX_CALLS | SCOPE_MAX_TOKENS | MAX_CALLS

  datatype Code = NO_SESSION | IDEMPOTENCY_CONFLICT | CALL_ATTEMPT_LIMIT | INVALID_CALL_STAGE | RUN_BUSY | PROVIDER

  datatype Answer = Granted(call: nat) | Blocked(reason: Reason) | Refused(code: Code)

  // ---------------------------------------------------------------- sums

  /** The accounted tokens of the rows after `boundary` that satisfy the filter. */
  function Charged(calls: seq<Call>, keep: (nat, Call) -> bool): nat {
    if calls == [] then 0
    else
      var last := |calls| - 1;
      Charged(calls[..last], keep) + (if keep(last + 1, calls[last]) then calls[last].charged else 0)
  }

  /** What the same calls used beyond their envelopes. */
  function Excess(calls: seq<Call>, keep: (nat, Call) -> bool): nat {
    if calls == [] then 0
    else
      var last := |calls| - 1;
      var c := calls[last];
      Excess(calls[..last], keep) + (if keep(last + 1, c) && c.charged > c.reserved then c.charged - c.reserved else 0)
  }

  function Count(calls: seq<Call>, keep: (nat, Call) -> bool): nat {
    if calls == [] then 0 else Count(calls[..|calls| - 1], keep) + (if keep(|calls|, calls[|calls| - 1]) then 1 else 0)
  }

  function InWindow(s: SessionId, boundary: nat): (nat, Call) -> bool { (row, c: Call) => c.session == s && row > boundary }

  /** Scope periods are aligned to multiples of their length. */
  function PeriodStart(windowMs: nat, now: nat): nat { if windowMs == 0 then now else now / windowMs * windowMs }

  function InPeriod(scope: Scope, start: nat): (nat, Call) -> bool { (row, c: Call) => c.scope == scope && c.startedAt >= start }

  function WindowTokens(b: Book, s: SessionId): nat {
    if s in b.sessions && b.sessions[s].window.Some? then Charged(b.calls, InWindow(s, b.sessions[s].window.value.boundary)) else 0
  }

  // ---------------------------------------------------------------- windows

  function EndOf(policy: Option<Policy>, start: nat): Option<nat> { if policy.Some? then Some(start + policy.value.windowMs) else None }

  /** The row id of the n-th call of the session. */
  function Nth(calls: seq<Call>, s: SessionId, n: nat): nat {
    if calls == [] || n == 0 then 0
    else if Count(calls, InWindow(s, 0)) == n && calls[|calls| - 1].session == s then |calls|
    else Nth(calls[..|calls| - 1], s, n)
  }

  function Open(b: Book, s: SessionId, now: nat, reset: bool): Book {
    if s !in b.sessions || (b.sessions[s].window.Some? && !reset) then b
    else
      var m := b.sessions[s];
      var boundary := if reset then |b.calls| else Nth(b.calls, s, m.windowCallStart);
      b.(sessions := b.sessions[s := m.(window := Some(Window(now, EndOf(m.policy, now), boundary)), windowCallStart := if reset then m.callCount else m.windowCallStart)])
  }

  /** New limits apply to the window that is open: its start and its consumption stay. */
  function Changed(b: Book, s: SessionId, policy: Option<Policy>): Book {
    if s !in b.sessions then b
    else
      var m := b.sessions[s];
      var window := if m.window.None? then None else Some(m.window.value.(endsAt := EndOf(policy, m.window.value.startedAt)));
      b.(sessions := b.sessions[s := m.(policy := policy, window := window)])
  }

  function Founded(b: Book, s: SessionId, policy: Option<Policy>): Book {
    if s in b.sessions then b else b.(sessions := b.sessions[s := Meter(policy, 0, 0, None)])
  }

  predicate Expired(m: Meter, now: nat) { m.window.Some? && m.window.value.endsAt.Some? && now >= m.window.value.endsAt.value }

  /** A scope that an enabled participant of the session uses, with the limits that are shared there. */
  datatype Shared = Shared(scope: Scope, policy: ScopePolicy)

  predicate ScopeExceeded(b: Book, x: Shared, now: nat) {
    x.policy.maxTokens.Some? && Charged(b.calls, InPeriod(x.scope, PeriodStart(x.policy.windowMs, now))) > x.policy.maxTokens.value
  }

  /** The limit that the accounted tokens have passed, the session's own before those it shares. */
  function Exceeded(b: Book, s: SessionId, scopes: seq<Shared>, now: nat): Option<Reason> {
    if s in b.sessions && b.sessions[s].policy.Some? && b.sessions[s].policy.value.maxTokens.Some? && WindowTokens(b, s) > b.sessions[s].policy.value.maxTokens.value
    then Some(MAX_TOKENS)
    else if exists x :: x in scopes && ScopeExceeded(b, x, now) then Some(SCOPE_MAX_TOKENS) else None
  }

  predicate CanAutoRenew(m: Meter, running: bool, pausedByBudget: bool, pausedByUser: bool, now: nat) {
    m.policy.Some? && m.policy.value.continuous && m.policy.value.autoRenew && Expired(m, now) && (running || (pausedByBudget && !pausedByUser))
  }

  // ---------------------------------------------------------------- reserving and settling

  function BlockedBy(b: Book, s: SessionId, scope: Scope, need: nat, policy: Option<ScopePolicy>, now: nat): Option<Reason>
    requires s in b.sessions
  {
    var m := b.sessions[s];
    if Expired(m, now) then Some(BUDGET_WINDOW_EXPIRED)
    else if m.policy.Some? && m.policy.value.maxTokens.Some? && WindowTokens(b, s) + need > m.policy.value.maxTokens.value then Some(MAX_TOKENS)
    else if policy.Some? then
      var period := InPeriod(scope, PeriodStart(policy.value.windowMs, now));
      if policy.value.maxCalls.Some? && Count(b.calls, period) + 1 > policy.value.maxCalls.value then Some(SCOPE_MAX_CALLS)
      else if policy.value.maxTokens.Some? && Charged(b.calls, period) + need > policy.value.maxTokens.value then Some(SCOPE_MAX_TOKENS) else None
    else None
  }

  predicate Same(calls: seq<Call>, run: RunId, key: nat, i: int) { 0 <= i < |calls| && calls[i].run == run && calls[i].key == key }

  /** The unique index on run and request key. */
  ghost predicate KeysUnique(calls: seq<Call>) {
    forall i, j :: 0 <= i < j < |calls| ==> !(calls[i].run == calls[j].run && calls[i].key == calls[j].key)
  }

  function OfRun(run: RunId): (nat, Call) -> bool { (row, c: Call) => c.run == run }

  function OfStage(run: RunId, stage: Stage): (nat, Call) -> bool { (row, c: Call) => c.run == run && c.stage == stage }

  predicate Busy(c: Call, now: nat) { (c.end.None? || c.end == Some(Unknown)) && c.expiresAt > now }

  /** A run begins with its primary call, repairs one answered call once, and looks something up once for each retrieval. */
  predicate StageFits(calls: seq<Call>, run: RunId, stage: Stage, retrievals: nat) {
    match stage
    case Primary => Count(calls, OfRun(run)) == 0
    case Repair => Count(calls, OfStage(run, Repair)) == 0 && exists i :: 0 <= i < |calls| && calls[i].run == run && calls[i].end == Some(Answered)
    case Lookup => Count(calls, OfStage(run, Lookup)) < retrievals <= 2
  }

  function AttemptProblem(calls: seq<Call>, run: RunId, stage: Stage, retrievals: nat, now: nat): Option<Code> {
    if Count(calls, OfRun(run)) >= 4 then Some(CALL_ATTEMPT_LIMIT)
    else if !StageFits(calls, run, stage, retrievals) then Some(INVALID_CALL_STAGE)
    else if exists i :: 0 <= i < |calls| && calls[i].run == run && Busy(calls[i], now) then Some(RUN_BUSY)
    else None
  }

  /** What a worker asks for; `retrievals` is the run's own counter of lookups, `need` the envelope. */
  datatype Ask = Ask(s: SessionId, scope: Scope, run: RunId, key: nat, stage: Stage, retrievals: nat, need: nat, deadline: nat)

  function Asked(a: Ask, now: nat): Call { Call(a.s, a.scope, a.run, a.key, a.stage, now, a.deadline, a.need, a.need, None, None) }

  /** A repeated request key of a run returns the call that it made. `admitted` is the verdict of the provider. */
  ghost function Reserve(b: Book, a: Ask, policy: Option<ScopePolicy>, maxCalls: nat, admitted: bool, now: nat): (Book, Answer) {
    if a.s !in b.sessions then (b, Refused(NO_SESSION))
    else if i :| Same(b.calls, a.run, a.key, i) then (b, if b.calls[i].stage == a.stage then Granted(i) else Refused(IDEMPOTENCY_CONFLICT))
    else if b.sessions[a.s].callCount - b.sessions[a.s].windowCallStart >= maxCalls then (b, Blocked(MAX_CALLS))
    else if AttemptProblem(b.calls, a.run, a.stage, a.retrievals, now).Some? then (b, Refused(AttemptProblem(b.calls, a.run, a.stage, a.retrievals, now).value))
    else
      var begun := Open(b, a.s, now, false);
      var blocked := BlockedBy(begun, a.s, a.scope, a.need, policy, now);
      if blocked.Some? then (begun, Blocked(blocked.value))
      else if !admitted then (b, Refused(PROVIDER))
      else
        var m := begun.sessions[a.s];
        (Book(begun.calls + [Asked(a, now)], begun.sessions[a.s := m.(callCount := m.callCount + 1)]), Granted(|begun.calls|))
  }

  function Reported(u: Usage): nat { u.input.GetOr(0) + u.output.GetOr(0) }

  predicate Known(u: Usage) { u.end != Unknown && u.input.Some? && u.output.Some? }

  /** Complete usage replaces the envelope; anything less keeps at least the envelope. */
  function Settled(c: Call, u: Usage, digest: nat): Call {
    c.(charged := if Known(u) then Reported(u) else if Reported(u) > c.reserved then Reported(u) else c.reserved, end := Some(u.end), resultHash := Some(digest))
  }

  /** A result counts once; repeating it changes nothing and another result for the same call is refused. */
  function Settle(b: Book, call: nat, u: Usage, digest: nat): Book {
    if call >= |b.calls| || b.calls[call].resultHash.Some? then b else b.(calls := b.calls[call := Settled(b.calls[call], u, digest)])
  }

  // ---------------------------------------------------------------- conservation

  /** Unsettled calls account for exactly their envelope. */
  predicate CallsOk(calls: seq<Call>) { forall i :: 0 <= i < |calls| && calls[i].resultHash.None? ==> calls[i].charged == calls[i].reserved }

  /** The envelope as far as it is still accounted. */
  function Within(c: Call): nat { if c.charged > c.reserved then c.reserved else c.charged }

  function WithinAll(calls: seq<Call>, keep: (nat, Call) -> bool): nat {
    if calls == [] then 0 else WithinAll(calls[..|calls| - 1], keep) + (if keep(|calls|, calls[|calls| - 1]) then Within(calls[|calls| - 1]) else 0)
  }

  lemma {:induction false} ChargeSplits(calls: seq<Call>, keep: (nat, Call) -> bool)
    ensures Charged(calls, keep) == WithinAll(calls, keep) + Excess(calls, keep)
  {
    if calls != [] { ChargeSplits(calls[..|calls| - 1], keep); }
  }

  lemma {:induction false} SettledSums(calls: seq<Call>, i: nat, c: Call, keep: (nat, Call) -> bool)
    requires i < |calls| && keep(i + 1, c) == keep(i + 1, calls[i])
    ensures Charged(calls[i := c], keep) == Charged(calls, keep) + (if keep(i + 1, c) then c.charged - calls[i].charged else 0)
    ensures WithinAll(calls[i := c], keep) == WithinAll(calls, keep) + (if keep(i + 1, c) then Within(c) - Within(calls[i]) else 0)
    ensures Count(calls[i := c], keep) == Count(calls, keep)
  {
    var last := |calls| - 1;
    if i < last {
      assert calls[i := c][..last] == calls[..last][i := c];
      SettledSums(calls[..last], i, c, keep);
    } else {
      assert calls[i := c][..last] == calls[..last];
    }
  }

  lemma NewSums(calls: seq<Call>, c: Call, keep: (nat, Call) -> bool)
    ensures Charged(calls + [c], keep) == Charged(calls, keep) + (if keep(|calls| + 1, c) then c.charged else 0)
    ensures WithinAll(calls + [c], keep) == WithinAll(calls, keep) + (if keep(|calls| + 1, c) then Within(c) else 0)
    ensures Count(calls + [c], keep) == Count(calls, keep) + (if keep(|calls| + 1, c) then 1 else 0)
  {
    assert (calls + [c])[..|calls|] == calls;
  }

  lemma {:induction false} NothingKept(calls: seq<Call>, s: SessionId, boundary: nat)
    requires boundary >= |calls|
    ensures Charged(calls, InWindow(s, boundary)) == 0 && WithinAll(calls, InWindow(s, boundary)) == 0 && Excess(calls, InWindow(s, boundary)) == 0
    ensures Count(calls, InWindow(s, boundary)) == 0
  {
    if calls != [] { NothingKept(calls[..|calls| - 1], s, boundary); }
  }

  /** A session whose limit stands keeps the envelopes still accounted in its open window within that limit. */
  ghost predicate Conserves(b: Book, s: SessionId, limit: nat) {
    && CallsOk(b.calls)
    && (s in b.sessions && b.sessions[s].window.Some? ==> WithinAll(b.calls, InWindow(s, b.sessions[s].window.value.boundary)) <= limit)
    && (s in b.sessions ==> Limits(b.sessions[s].policy, limit))
  }

  datatype Event =
    | Founding(s: SessionId, firstPolicy: Option<Policy>)
    | Reserving(ask: Ask, policy: Option<ScopePolicy>, maxCalls: nat, admitted: bool, now: nat)
    | Settling(call: nat, usage: Usage, digest: nat)
    | Renewing(s: SessionId, now: nat)
    | Opening(s: SessionId, now: nat)
    | Repricing(s: SessionId, newPolicy: Option<Policy>)

  ghost function Next(b: Book, e: Event): Book {
    match e
    case Founding(s, policy) => Founded(b, s, policy)
    case Reserving(ask, policy, maxCalls, admitted, now) => Reserve(b, ask, policy, maxCalls, admitted, now).0
    case Settling(call, u, digest) => Settle(b, call, u, digest)
    case Renewing(s, now) => Open(b, s, now, true)
    case Opening(s, now) => Open(b, s, now, false)
    case Repricing(s, policy) => Changed(b, s, policy)
  }

  predicate Limits(policy: Option<Policy>, limit: nat) { policy.Some? && policy.value.maxTokens == Some(limit) }

  /** The event leaves the session's token limit at this value. */
  predicate KeepsLimit(e: Event, s: SessionId, limit: nat) {
    (e.Repricing? && e.s == s ==> Limits(e.newPolicy, limit)) && (e.Founding? && e.s == s ==> Limits(e.firstPolicy, limit))
  }

  lemma SettleConserves(b: Book, call: nat, u: Usage, digest: nat, s: SessionId, limit: nat)
    requires Conserves(b, s, limit)
    ensures Conserves(Settle(b, call, u, digest), s, limit)
  {
    if call < |b.calls| && b.calls[call].resultHash.None? && s in b.sessions && b.sessions[s].window.Some? {
      SettledSums(b.calls, call, Settled(b.calls[call], u, digest), InWindow(s, b.sessions[s].window.value.boundary));
    }
  }

  /** Every call of a session was reserved in a window. */
  ghost predicate CallsHaveWindows(b: Book) {
    forall i :: 0 <= i < |b.calls| ==> b.calls[i].session in b.sessions && b.sessions[b.calls[i].session].window.Some?
  }

  lemma {:induction false} NoCalls(calls: seq<Call>, s: SessionId, boundary: nat)
    requires forall i :: 0 <= i < |calls| ==> calls[i].session != s
    ensures WithinAll(calls, InWindow(s, boundary)) == 0
  {
    if calls != [] { NoCalls(calls[..|calls| - 1], s, boundary); }
  }

  lemma OpenConserves(b: Book, o: SessionId, now: nat, reset: bool, s: SessionId, limit: nat)
    requires Conserves(b, s, limit) && CallsHaveWindows(b)
    ensures Conserves(Open(b, o, now, reset), s, limit) && CallsHaveWindows(Open(b, o, now, reset))
  {
    hide Nth;
    if reset { NothingKept(b.calls, o, |b.calls|); }
    if o in b.sessions && b.sessions[o].window.None? { NoCalls(b.calls, o, Nth(b.calls, o, b.sessions[o].windowCallStart)); }
  }

  lemma ReserveConserves(b: Book, e: Event, s: SessionId, limit: nat)
    requires Conserves(b, s, limit) && CallsHaveWindows(b) && e.Reserving?
    ensures Conserves(Next(b, e), s, limit) && CallsHaveWindows(Next(b, e))
  {
    hide Nth, CallsOk, AttemptProblem;
    OpenConserves(b, e.ask.s, e.now, false, s, limit);
    var begun := Open(b, e.ask.s, e.now, false);
    if e.ask.s in b.sessions {
      var c := Asked(e.ask, e.now);
      MoreCallsOk(begun.calls, c);
      if s in begun.sessions && begun.sessions[s].window.Some? {
        var keep := InWindow(s, begun.sessions[s].window.value.boundary);
        NewSums(begun.calls, c, keep);
        ChargeSplits(begun.calls, keep);
      }
    }
  }

  lemma MoreCallsOk(calls: seq<Call>, c: Call)
    requires CallsOk(calls) && c.charged == c.reserved
    ensures CallsOk(calls + [c])
  {
  }

  lemma NextConserves(b: Book, e: Event, s: SessionId, limit: nat)
    requires Conserves(b, s, limit) && CallsHaveWindows(b) && KeepsLimit(e, s, limit)
    ensures Conserves(Next(b, e), s, limit) && CallsHaveWindows(Next(b, e))
  {
    hide Reserve, Nth;
    match e
    case Founding(_, _) =>
    case Reserving(_, _, _, _, _) => ReserveConserves(b, e, s, limit);
    case Settling(call, u, digest) => SettleConserves(b, call, u, digest, s, limit);
    case Renewing(o, now) => OpenConserves(b, o, now, true, s, limit);
    case Opening(o, now) => OpenConserves(b, o, now, false, s, limit);
    case Repricing(_, _) =>
  }

  ghost function Run(b: Book, events: seq<Event>): Book
    decreases |events|
  {
    if events == [] then b else Run(Next(b, events[0]), events[1..])
  }

  const Empty: Book := Book([], map[])

  lemma {:induction false} RunConserves(b: Book, events: seq<Event>, s: SessionId, limit: nat)
    requires Conserves(b, s, limit) && CallsHaveWindows(b) && forall i :: 0 <= i < |events| ==> KeepsLimit(events[i], s, limit)
    ensures Conserves(Run(b, events), s, limit)
    decreases |events|
  {
    hide Next, CallsHaveWindows, Conserves, KeepsLimit;
    if events != [] {
      NextConserves(b, events[0], s, limit);
      RunConserves(Next(b, events[0]), events[1..], s, limit);
    }
  }

  /** In every reachable state of a session whose token limit stays the same, the tokens accounted in the open window exceed the limit by no
      more than what single calls reported beyond their own envelopes. */
  lemma TokensAreConserved(events: seq<Event>, s: SessionId, limit: nat)
    requires forall i :: 0 <= i < |events| ==> KeepsLimit(events[i], s, limit)
    ensures var b := Run(Empty, events);
      s in b.sessions && b.sessions[s].window.Some? ==>
        WindowTokens(b, s) <= limit + Excess(b.calls, InWindow(s, b.sessions[s].window.value.boundary))
  {
    hide KeepsLimit;
    var b := Run(Empty, events);
    RunConserves(Empty, events, s, limit);
    if s in b.sessions && b.sessions[s].window.Some? { ChargeSplits(b.calls, InWindow(s, b.sessions[s].window.value.boundary)); }
  }

  lemma {:induction false} SomeOverrun(calls: seq<Call>, keep: (nat, Call) -> bool)
    requires Excess(calls, keep) > 0
    ensures exists i :: 0 <= i < |calls| && keep(i + 1, calls[i]) && calls[i].charged > calls[i].reserved
  {
    var last := |calls| - 1;
    if keep(last + 1, calls[last]) && calls[last].charged > calls[last].reserved {
      assert keep(last + 1, calls[last]);
    } else {
      SomeOverrun(calls[..last], keep);
      var i :| 0 <= i < last && keep(i + 1, calls[..last][i]) && calls[..last][i].charged > calls[..last][i].reserved;
      assert keep(i + 1, calls[i]);
    }
  }

  // ---------------------------------------------------------------- settlement

  /** A first complete report moves the window by exactly the difference to the envelope; an incomplete or unknown one never lowers it;
      a report for a call of an earlier window, and any further report for the same call, leave the window alone. */
  lemma SettlementIsExact(b: Book, call: nat, u: Usage, digest: nat, s: SessionId)
    requires CallsOk(b.calls) && s in b.sessions && b.sessions[s].window.Some? && call < |b.calls|
    ensures var c, b' := b.calls[call], Settle(b, call, u, digest);
      var current := c.session == s && call + 1 > b.sessions[s].window.value.boundary;
      && (!current || c.resultHash.Some? ==> WindowTokens(b', s) == WindowTokens(b, s))
      && (current && c.resultHash.None? && Known(u) ==> WindowTokens(b', s) + c.reserved == WindowTokens(b, s) + Reported(u))
      && (current && c.resultHash.None? && !Known(u) ==>
            WindowTokens(b', s) >= WindowTokens(b, s) && (Reported(u) <= c.reserved ==> WindowTokens(b', s) == WindowTokens(b, s)))
      && Settle(b', call, u, digest) == b'
  {
    if b.calls[call].resultHash.None? {
      SettledSums(b.calls, call, Settled(b.calls[call], u, digest), InWindow(s, b.sessions[s].window.value.boundary));
    }
  }

  /** A repeated request reserves nothing: it is answered with the call that the key already made. */
  lemma RepeatReservesOnce(b: Book, e: Event, again: Event)
    requires e.Reserving? && again.Reserving? && e.ask.s == again.ask.s && e.ask.run == again.ask.run && e.ask.key == again.ask.key
    requires KeysUnique(b.calls)
    requires Reserve(b, e.ask, e.policy, e.maxCalls, e.admitted, e.now).1.Granted?
    ensures var first := Reserve(b, e.ask, e.policy, e.maxCalls, e.admitted, e.now);
      var second := Reserve(first.0, again.ask, again.policy, again.maxCalls, again.admitted, again.now);
      second.0 == first.0 && second.1 == if again.ask.stage == e.ask.stage then first.1 else Refused(IDEMPOTENCY_CONFLICT)
  {
    hide Nth, BlockedBy, AttemptProblem;
    var first := Reserve(b, e.ask, e.policy, e.maxCalls, e.admitted, e.now);
    var id := first.1.call;
    assert Same(first.0.calls, e.ask.run, e.ask.key, id);
    forall i | Same(first.0.calls, e.ask.run, e.ask.key, i) ensures i == id {
      if i < |b.calls| { assert Same(b.calls, e.ask.run, e.ask.key, i); }
    }
  }

  /** New limits grant neither a fresh period nor fresh tokens. */
  lemma RepricingGrantsNothing(b: Book, s: SessionId, policy: Option<Policy>)
    requires s in b.sessions
    ensures var b' := Changed(b, s, policy);
      && WindowTokens(b', s) == WindowTokens(b, s) && b'.calls == b.calls && b'.sessions[s].callCount == b.sessions[s].callCount
      && (b.sessions[s].window.Some? ==> b'.sessions[s].window.Some? && b'.sessions[s].window.value.startedAt == b.sessions[s].window.value.startedAt)
  {
  }

  // ---------------------------------------------------------------- renewal

  /** The events neither renew the session's window nor change its policy. */
  predicate LeavesWindow(e: Event, s: SessionId) { !(e.Renewing? && e.s == s) && !(e.Repricing? && e.s == s) }

  lemma {:induction false} WindowStays(b: Book, events: seq<Event>, s: SessionId)
    requires s in b.sessions && b.sessions[s].window.Some? && forall e :: e in events ==> LeavesWindow(e, s)
    ensures var b' := Run(b, events); s in b'.sessions && b'.sessions[s].window == b.sessions[s].window && b'.sessions[s].policy == b.sessions[s].policy
    decreases |events|
  {
    hide Nth, AttemptProblem, BlockedBy;
    if events != [] {
      assert events[0] in events;
      WindowStays(Next(b, events[0]), events[1..], s);
    }
  }

  /** A window that renews itself begins with nothing accounted, and does not renew itself again before its whole length has passed, whatever
      is reserved and settled in it. */
  lemma RenewalIsOncePerWindow(b: Book, events: seq<Event>, s: SessionId, now: nat, later: nat, running: bool, pausedByBudget: bool, pausedByUser: bool)
    requires s in b.sessions && CanAutoRenew(b.sessions[s], running, pausedByBudget, pausedByUser, now)
    requires forall e :: e in events ==> LeavesWindow(e, s)
    requires now <= later < now + b.sessions[s].policy.value.windowMs
    ensures WindowTokens(Open(b, s, now, true), s) == 0
    ensures var b' := Run(Open(b, s, now, true), events);
      s in b'.sessions && forall r, p, u :: !CanAutoRenew(b'.sessions[s], r, p, u, later)
  {
    NothingKept(b.calls, s, |b.calls|);
    WindowStays(Open(b, s, now, true), events, s);
  }

  // ---------------------------------------------------------------- attempts of a run

  predicate Counted(calls: seq<Call>, run: RunId) {
    && Count(calls, OfStage(run, Primary)) <= 1 && Count(calls, OfStage(run, Repair)) <= 1 && Count(calls, OfStage(run, Lookup)) <= 2
  }

  /** An end is recorded exactly with a result. */
  predicate EndsOk(calls: seq<Call>) { forall i :: 0 <= i < |calls| ==> (calls[i].end.None? <==> calls[i].resultHash.None?) }

  /** When a run made a call, each of its earlier calls had ended with an answer or an error or had passed its deadline. */
  predicate OneAtATime(calls: seq<Call>) {
    forall i, j :: 0 <= i < j < |calls| && calls[i].run == calls[j].run ==> !Busy(calls[i], calls[j].startedAt)
  }

  lemma {:induction false} StagesAddUp(calls: seq<Call>, run: RunId)
    ensures Count(calls, OfRun(run)) == Count(calls, OfStage(run, Primary)) + Count(calls, OfStage(run, Repair)) + Count(calls, OfStage(run, Lookup))
  {
    if calls != [] { StagesAddUp(calls[..|calls| - 1], run); }
  }

  /** What a reservation adds to the table, if anything. */
  lemma ReservedRow(b: Book, e: Event)
    requires e.Reserving? && Next(b, e).calls != b.calls
    ensures Next(b, e).calls == b.calls + [Asked(e.ask, e.now)] && AttemptProblem(b.calls, e.ask.run, e.ask.stage, e.ask.retrievals, e.now).None?
  {
    hide Nth, BlockedBy, AttemptProblem;
  }

  lemma SettledRow(b: Book, call: nat, u: Usage, digest: nat, run: RunId)
    requires Counted(b.calls, run) && OneAtATime(b.calls) && EndsOk(b.calls)
    ensures Counted(Settle(b, call, u, digest).calls, run) && OneAtATime(Settle(b, call, u, digest).calls) && EndsOk(Settle(b, call, u, digest).calls)
  {
    if call < |b.calls| && b.calls[call].resultHash.None? {
      SettledSums(b.calls, call, Settled(b.calls[call], u, digest), OfStage(run, Primary));
      SettledSums(b.calls, call, Settled(b.calls[call], u, digest), OfStage(run, Repair));
      SettledSums(b.calls, call, Settled(b.calls[call], u, digest), OfStage(run, Lookup));
    }
  }

  lemma NextCounts(b: Book, e: Event, run: RunId)
    requires Counted(b.calls, run) && OneAtATime(b.calls) && EndsOk(b.calls)
    ensures Counted(Next(b, e).calls, run) && OneAtATime(Next(b, e).calls) && EndsOk(Next(b, e).calls)
  {
    hide Nth, Reserve, AttemptProblem;
    if e.Settling? { SettledRow(b, e.call, e.usage, e.digest, run); }
    else if e.Reserving? && Next(b, e).calls != b.calls {
      ReservedRow(b, e);
      AttemptCounts(b.calls, e.ask, e.now, run);
    }
  }

  lemma AttemptCounts(calls: seq<Call>, a: Ask, now: nat, run: RunId)
    requires Counted(calls, run) && OneAtATime(calls) && AttemptProblem(calls, a.run, a.stage, a.retrievals, now).None?
    ensures Counted(calls + [Asked(a, now)], run) && OneAtATime(calls + [Asked(a, now)])
  {
    StagesAddUp(calls, a.run);
    NewSums(calls, Asked(a, now), OfStage(run, Primary));
    NewSums(calls, Asked(a, now), OfStage(run, Repair));
    NewSums(calls, Asked(a, now), OfStage(run, Lookup));
  }

  lemma {:induction false} RunCounts(b: Book, events: seq<Event>, run: RunId)
    requires Counted(b.calls, run) && OneAtATime(b.calls) && EndsOk(b.calls)
    ensures Counted(Run(b, events).calls, run) && OneAtATime(Run(b, events).calls)
    decreases |events|
  {
    hide Next, Counted, OneAtATime, EndsOk;
    if events != [] {
      NextCounts(b, events[0], run);
      RunCounts(Next(b, events[0]), events[1..], run);
    }
  }

  /** In every reachable state a run has made at most one primary call, one repair and two lookups, and never began a call beside one of
      its own that could still be running. */
  lemma AttemptsAreBounded(events: seq<Event>, run: RunId)
    ensures var calls := Run(Empty, events).calls; Counted(calls, run) && Count(calls, OfRun(run)) <= 4 && OneAtATime(calls)
  {
    RunCounts(Empty, events, run);
    StagesAddUp(Run(Empty, events).calls, run);
  }

  // ---------------------------------------------------------------- scopes

  /** The period of a scope that contains an instant. */
  function Period(scope: Scope, windowMs: nat, k: nat): (nat, Call) -> bool {
    (row, c: Call) => c.scope == scope && k * windowMs <= c.startedAt < (k + 1) * windowMs
  }

  /** No call starts in the future. */
  predicate Started(calls: seq<Call>, now: nat) { forall i :: 0 <= i < |calls| ==> calls[i].startedAt <= now }

  lemma {:induction false} PeriodIsWindow(calls: seq<Call>, scope: Scope, windowMs: nat, now: nat)
    requires windowMs > 0 && Started(calls, now)
    ensures Charged(calls, InPeriod(scope, PeriodStart(windowMs, now))) == Charged(calls, Period(scope, windowMs, now / windowMs))
    ensures Count(calls, InPeriod(scope, PeriodStart(windowMs, now))) == Count(calls, Period(scope, windowMs, now / windowMs))
    ensures Excess(calls, InPeriod(scope, PeriodStart(windowMs, now))) == Excess(calls, Period(scope, windowMs, now / windowMs))
  {
    if calls != [] {
      PeriodIsWindow(calls[..|calls| - 1], scope, windowMs, now);
      NextPeriodIsLater(windowMs, now);
    }
  }

  lemma NextPeriodIsLater(windowMs: nat, now: nat)
    requires windowMs > 0
    ensures now / windowMs * windowMs <= now < (now / windowMs + 1) * windowMs
  {
    assert now == now / windowMs * windowMs + now % windowMs;
  }

  /** A granted call leaves the scope's period within the shared limits. */
  lemma ScopeGrantFits(b: Book, e: Event, limit: nat)
    requires e.Reserving? && e.policy.Some? && e.policy.value.maxTokens == Some(limit) && e.policy.value.windowMs > 0 && Started(b.calls, e.now)
    requires Next(b, e).calls != b.calls
    ensures var k := e.now / e.policy.value.windowMs;
      Charged(Next(b, e).calls, Period(e.ask.scope, e.policy.value.windowMs, k)) <= limit
    ensures e.policy.value.maxCalls.Some? ==>
      Count(Next(b, e).calls, Period(e.ask.scope, e.policy.value.windowMs, e.now / e.policy.value.windowMs)) <= e.policy.value.maxCalls.value
  {
    hide Nth, Started, AttemptProblem;
    PeriodIsWindow(b.calls, e.ask.scope, e.policy.value.windowMs, e.now);
    NextPeriodIsLater(e.policy.value.windowMs, e.now);
    NewSums(b.calls, Asked(e.ask, e.now), Period(e.ask.scope, e.policy.value.windowMs, e.now / e.policy.value.windowMs));
  }

  /** In every period the envelopes still accounted in the scope stay within the limit. */
  ghost predicate ScopeConserves(b: Book, x: Shared, now: nat) {
    && CallsOk(b.calls) && Started(b.calls, now)
    && (x.policy.maxTokens.Some? ==> forall k :: WithinAll(b.calls, Period(x.scope, x.policy.windowMs, k)) <= x.policy.maxTokens.value)
  }

  /** Whoever reserves in the scope does so under these limits. */
  predicate KeepsScope(e: Event, x: Shared) { e.Reserving? && e.ask.scope == x.scope ==> e.policy == Some(x.policy) }

  function Clock(e: Event, since: nat): nat { if e.Reserving? then e.now else since }

  /** The clock never runs backwards. */
  predicate Forward(events: seq<Event>, since: nat)
    decreases |events|
  {
    events == [] || (since <= Clock(events[0], since) && Forward(events[1..], Clock(events[0], since)))
  }

  function EndOfRun(events: seq<Event>, since: nat): nat
    decreases |events|
  {
    if events == [] then since else EndOfRun(events[1..], Clock(events[0], since))
  }

  lemma SettleConservesScope(b: Book, e: Event, x: Shared, now: nat)
    requires ScopeConserves(b, x, now) && e.Settling?
    ensures ScopeConserves(Next(b, e), x, now)
  {
    if e.call < |b.calls| && b.calls[e.call].resultHash.None? && x.policy.maxTokens.Some? {
      forall k ensures WithinAll(Next(b, e).calls, Period(x.scope, x.policy.windowMs, k)) <= x.policy.maxTokens.value {
        SettledSums(b.calls, e.call, Settled(b.calls[e.call], e.usage, e.digest), Period(x.scope, x.policy.windowMs, k));
      }
    }
  }

  lemma ReserveConservesScope(b: Book, e: Event, x: Shared, since: nat)
    requires ScopeConserves(b, x, since) && e.Reserving? && since <= e.now && KeepsScope(e, x) && x.policy.windowMs > 0
    ensures ScopeConserves(Next(b, e), x, e.now)
  {
    hide Next;
    var b' := Next(b, e);
    if b'.calls != b.calls {
      ReservedRow(b, e);
      forall k | x.policy.maxTokens.Some? ensures WithinAll(b'.calls, Period(x.scope, x.policy.windowMs, k)) <= x.policy.maxTokens.value {
        var keep := Period(x.scope, x.policy.windowMs, k);
        NewSums(b.calls, Asked(e.ask, e.now), keep);
        if keep(|b.calls| + 1, Asked(e.ask, e.now)) {
          OnePeriod(x.policy.windowMs, k, e.now);
          ScopeGrantFits(b, e, x.policy.maxTokens.value);
          ChargeSplits(b'.calls, keep);
        }
      }
    }
  }

  lemma OnePeriod(windowMs: nat, k: nat, now: nat)
    requires windowMs > 0 && k * windowMs <= now < (k + 1) * windowMs
    ensures k == now / windowMs
  {
    NextPeriodIsLater(windowMs, now);
    var q := now / windowMs;
    if k < q { Multiples(k + 1, q, windowMs); }
    if q < k { Multiples(q + 1, k, windowMs); }
  }

  lemma {:induction false} Multiples(small: nat, large: nat, windowMs: nat)
    requires small <= large
    ensures small * windowMs <= large * windowMs
  {
    assert large * windowMs - small * windowMs == (large - small) * windowMs;
  }

  lemma NextConservesScope(b: Book, e: Event, x: Shared, since: nat)
    requires ScopeConserves(b, x, since) && since <= Clock(e, since) && KeepsScope(e, x) && x.policy.windowMs > 0
    ensures ScopeConserves(Next(b, e), x, Clock(e, since))
  {
    hide Reserve, Nth, Settle;
    match e
    case Reserving(_, _, _, _, _) => ReserveConservesScope(b, e, x, since);
    case Settling(_, _, _) => SettleConservesScope(b, e, x, since);
    case Founding(_, _) =>
    case Renewing(_, _) =>
    case Opening(_, _) =>
    case Repricing(_, _) =>
  }

  lemma {:induction false} RunConservesScope(b: Book, events: seq<Event>, x: Shared, since: nat)
    requires ScopeConserves(b, x, since) && Forward(events, since) && x.policy.windowMs > 0 && forall e :: e in events ==> KeepsScope(e, x)
    ensures ScopeConserves(Run(b, events), x, EndOfRun(events, since))
    decreases |events|
  {
    hide ScopeConserves, Next, KeepsScope;
    if events != [] {
      assert events[0] in events;
      NextConservesScope(b, events[0], x, since);
      RunConservesScope(Next(b, events[0]), events[1..], x, Clock(events[0], since));
    }
  }

  lemma NothingAccounted(x: Shared)
    ensures ScopeConserves(Empty, x, 0)
  {
  }

  /** In every reachable state in which all who share a scope share its limits, the tokens accounted in any period of the scope exceed the
      limit by no more than what single calls of that period reported beyond their envelopes. */
  lemma ScopeTokensAreConserved(events: seq<Event>, x: Shared, limit: nat, k: nat)
    requires Forward(events, 0) && x.policy.windowMs > 0 && x.policy.maxTokens == Some(limit) && forall e :: e in events ==> KeepsScope(e, x)
    ensures var calls, period := Run(Empty, events).calls, Period(x.scope, x.policy.windowMs, k); Charged(calls, period) <= limit + Excess(calls, period)
  {
    hide KeepsScope;
    NothingAccounted(x);
    RunConservesScope(Empty, events, x, 0);
    ChargeSplits(Run(Empty, events).calls, Period(x.scope, x.policy.windowMs, k));
  }

  /** In every reachable state with fixed limits, a session that is found over a limit is so because a call that counts towards that limit
      reported more than its envelope. */
  lemma ExceededMeansOverrun(events: seq<Event>, s: SessionId, limit: nat, scopes: seq<Shared>, now: nat)
    requires Forward(events, 0) && EndOfRun(events, 0) <= now && forall e :: e in events ==> KeepsLimit(e, s, limit)
    requires forall x :: x in scopes ==> x.policy.windowMs > 0 && forall e :: e in events ==> KeepsScope(e, x)
    ensures var b := Run(Empty, events);
      match Exceeded(b, s, scopes, now)
      case Some(MAX_TOKENS) => b.sessions[s].window.Some? && Overran(b.calls, InWindow(s, b.sessions[s].window.value.boundary))
      case Some(_) => exists x :: x in scopes && Overran(b.calls, InPeriod(x.scope, PeriodStart(x.policy.windowMs, now)))
      case None => true
  {
    hide KeepsLimit, KeepsScope;
    var b := Run(Empty, events);
    TokensAreConserved(events, s, limit);
    RunConserves(Empty, events, s, limit);
    match Exceeded(b, s, scopes, now)
    case Some(MAX_TOKENS) => SomeOverrun(b.calls, InWindow(s, b.sessions[s].window.value.boundary));
    case Some(SCOPE_MAX_TOKENS) =>
      var x :| x in scopes && ScopeExceeded(b, x, now);
      ScopeOverrun(events, x, now);
    case None =>
  }

  lemma ScopeOverrun(events: seq<Event>, x: Shared, now: nat)
    requires Forward(events, 0) && EndOfRun(events, 0) <= now && x.policy.windowMs > 0 && forall e :: e in events ==> KeepsScope(e, x)
    requires ScopeExceeded(Run(Empty, events), x, now)
    ensures Overran(Run(Empty, events).calls, InPeriod(x.scope, PeriodStart(x.policy.windowMs, now)))
  {
    hide KeepsScope;
    var calls := Run(Empty, events).calls;
    NothingAccounted(x);
    RunConservesScope(Empty, events, x, 0);
    PeriodIsWindow(calls, x.scope, x.policy.windowMs, now);
    ScopeTokensAreConserved(events, x, x.policy.maxTokens.value, now / x.policy.windowMs);
    SomeOverrun(calls, InPeriod(x.scope, PeriodStart(x.policy.windowMs, now)));
  }

  predicate Overran(calls: seq<Call>, keep: (nat, Call) -> bool) {
    exists i :: 0 <= i < |calls| && keep(i + 1, calls[i]) && calls[i].charged > calls[i].reserved
  }

  // ---------------------------------------------------------------- the object

  class SessionBudget {
    var calls: seq<Call>
    var sessions: map<SessionId, Meter>

    function Now(): Book
      reads this
    {
      Book(calls, sessions)
    }

    constructor ()
      ensures Now() == Book([], map[])
    {
      calls, sessions := [], map[];
    }

    method OpenWindow(s: SessionId, now: nat, reset: bool)
      modifies this
      ensures Now() == Open(old(Now()), s, now, reset)
    {
      if s !in sessions || (sessions[s].window.Some? && !reset) { return; }
      var m := sessions[s];
      var boundary := if reset then |calls| else Nth(calls, s, m.windowCallStart);
      sessions := sessions[s := m.(window := Some(Window(now, EndOf(m.policy, now), boundary)))];
      if reset { sessions := sessions[s := sessions[s].(windowCallStart := m.callCount)]; }
    }

    method ChangePolicy(s: SessionId, policy: Option<Policy>)
      modifies this
      ensures Now() == Changed(old(Now()), s, policy)
    {
      if s !in sessions { return; }
      sessions := sessions[s := sessions[s].(policy := policy)];
      var w := sessions[s].window;
      if w.Some? { sessions := sessions[s := sessions[s].(window := Some(w.value.(endsAt := EndOf(policy, w.value.startedAt))))]; }
    }

    method Found(s: SessionId, policy: Option<Policy>)
      modifies this
      ensures Now() == Founded(old(Now()), s, policy)
    {
      if s !in sessions { sessions := sessions[s := Meter(policy, 0, 0, None)]; }
    }

    method ReserveCall(a: Ask, policy: Option<ScopePolicy>, maxCalls: nat, admitted: bool, now: nat) returns (answer: Answer)
      requires KeysUnique(calls)
      modifies this
      ensures KeysUnique(calls)
      ensures (Now(), answer) == Reserve(old(Now()), a, policy, maxCalls, admitted, now)
    {
      hide Open, BlockedBy, AttemptProblem;
      if a.s !in sessions { return Refused(NO_SESSION); }
      if i :| 0 <= i < |calls| && Same(calls, a.run, a.key, i) {
        return if calls[i].stage == a.stage then Granted(i) else Refused(IDEMPOTENCY_CONFLICT);
      }
      if sessions[a.s].callCount - sessions[a.s].windowCallStart >= maxCalls { return Blocked(MAX_CALLS); }
      var problem := AttemptProblem(calls, a.run, a.stage, a.retrievals, now);
      if problem.Some? { return Refused(problem.value); }
      var savedCalls, savedSessions := calls, sessions;
      OpenedHas(Now(), a.s, now);
      OpenWindow(a.s, now, false);
      var blocked := BlockedBy(Now(), a.s, a.scope, a.need, policy, now);
      if blocked.Some? { return Blocked(blocked.value); }
      if !admitted {
        calls, sessions := savedCalls, savedSessions;
        return Refused(PROVIDER);
      }
      answer := Granted(|calls|);
      NewKeyIsUnique(calls, Asked(a, now));
      calls := calls + [Asked(a, now)];
      sessions := sessions[a.s := sessions[a.s].(callCount := sessions[a.s].callCount + 1)];
    }

    method SettleCall(call: nat, u: Usage, digest: nat)
      modifies this
      ensures Now() == Settle(old(Now()), call, u, digest)
      ensures KeysUnique(old(calls)) ==> KeysUnique(calls)
    {
      if call >= |calls| || calls[call].resultHash.Some? { return; }
      var c := calls[call];
      var reported := u.input.GetOr(0) + u.output.GetOr(0);
      var known := u.end != Unknown && u.input.Some? && u.output.Some?;
      calls := calls[call := c.(charged := if known then reported else if reported > c.reserved then reported else c.reserved, end := Some(u.end), resultHash := Some(digest))];
    }
  }

  lemma NewKeyIsUnique(calls: seq<Call>, c: Call)
    requires KeysUnique(calls) && forall i :: 0 <= i < |calls| ==> !Same(calls, c.run, c.key, i)
    ensures KeysUnique(calls + [c])
  {
    forall i | 0 <= i < |calls| ensures !(calls[i].run == c.run && calls[i].key == c.key) { assert !Same(calls, c.run, c.key, i); }
  }

  lemma OpenedHas(b: Book, s: SessionId, now: nat)
    requires s in b.sessions
    ensures s in Open(b, s, now, false).sessions && Open(b, s, now, false).calls == b.calls
  {
  }
}
