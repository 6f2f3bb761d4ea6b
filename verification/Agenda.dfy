/** The plans by which an owner asks to be woken: one plan per condition, one wake per match, and a minimum interval between wakes. */
module Agenda {
  import opened Wrappers
  import W = InputWindows

  type PlanId = nat
  type EntryId = nat

  datatype Condition = AtTime(notBefore: nat) | NewMessage | AnswerFrom(who: W.Owner) | RelatedTopic(topic: string)

  datatype Status = PENDING | TRIGGERED | CONSUMED | CANCELLED

  datatype Match = Match(input: nat, version: nat)

  datatype Plan = Plan(entry: EntryId, condition: Condition, status: Status, checkedInput: nat, effectiveAt: Option<nat>, matched: Option<Match>,
                       notified: bool, createdAt: nat)

  /** One owner's rows, with the times of its wakes and the number of withdrawn matches so far kept as history. */
  datatype Agenda = Agenda(plans: map<PlanId, Plan>, bindings: map<EntryId, PlanId>, lastWake: Option<nat>, wakes: seq<nat>, withdrawals: nat)

  datatype Settings = Settings(minimumMs: nat, selfWake: bool)

  datatype Said = Said(author: W.Owner, deleted: bool, text: string)

  /** What dispatch reads for one owner: the log and the present versions, what the messages and the sources say, and the normal form in
      which texts are compared. */
  datatype Inputs = Inputs(owner: W.Owner, store: W.Store, said: map<W.MessageId, Said>, written: map<W.SourceId, string>, normal: string -> string)

  datatype Signal = Signal(plan: PlanId, matched: Option<Match>)

  function Max(a: nat, b: nat): nat { if a < b then b else a }

  predicate Open(s: Status) { s == PENDING || s == TRIGGERED }

  predicate Bound(a: Agenda, p: PlanId) { p in a.plans && a.plans[p].entry in a.bindings && a.bindings[a.plans[p].entry] == p }

  predicate Active(a: Agenda, p: PlanId) { Bound(a, p) && Open(a.plans[p].status) }

  function NextAt(a: Agenda, st: Settings): nat { if a.lastWake.Some? then a.lastWake.value + st.minimumMs else 0 }

  // ---------------------------------------------------------------- binding conditions

  /** The entry still asks for the condition that its plan was made for. */
  predicate Kept(a: Agenda, requested: map<EntryId, Condition>, e: EntryId) {
    e in a.bindings && a.bindings[e] in a.plans && e in requested && requested[e] == a.plans[a.bindings[e]].condition
  }

  function Renewed(a: Agenda, requested: map<EntryId, Condition>): set<EntryId> { set e | e in requested && !Kept(a, requested, e) }

  function Withdrawn(a: Agenda, requested: map<EntryId, Condition>, p: PlanId): bool { Bound(a, p) && !Kept(a, requested, a.plans[p].entry) }

  function NewPlan(a: Agenda, e: EntryId, c: Condition, st: Settings, from: nat, now: nat): Plan {
    Plan(e, c, PENDING, from, if c.AtTime? then Some(Max(c.notBefore, Max(now + st.minimumMs, NextAt(a, st)))) else None, None, false, now)
  }

  /** Plans whose condition is no longer asked for are cancelled and unbound. */
  function Release(a: Agenda, requested: map<EntryId, Condition>): Agenda {
    a.(plans := map p | p in a.plans :: if Withdrawn(a, requested, p) && Open(a.plans[p].status) then a.plans[p].(status := CANCELLED) else a.plans[p],
       bindings := map e | e in a.bindings && Kept(a, requested, e) :: a.bindings[e])
  }

  datatype Order = Order(entry: EntryId, id: PlanId)

  /** One fresh plan for every entry whose condition is new. */
  ghost predicate Fills(a: Agenda, requested: map<EntryId, Condition>, orders: seq<Order>) {
    && (forall o :: o in orders ==> o.entry in Renewed(a, requested) && o.id !in a.plans)
    && (forall e :: e in Renewed(a, requested) ==> exists o :: o in orders && o.entry == e)
    && forall i, j :: 0 <= i < j < |orders| ==> orders[i].entry != orders[j].entry && orders[i].id != orders[j].id
  }

  function Bind(a: Agenda, requested: map<EntryId, Condition>, orders: seq<Order>, st: Settings, from: nat, now: nat): Agenda
    requires forall o :: o in orders ==> o.entry in requested
  {
    if orders == [] then a
    else
      var o, before := orders[|orders| - 1], Bind(a, requested, orders[..|orders| - 1], st, from, now);
      before.(plans := before.plans[o.id := NewPlan(before, o.entry, requested[o.entry], st, from, now)], bindings := before.bindings[o.entry := o.id])
  }

  ghost function Sync(a: Agenda, requested: map<EntryId, Condition>, orders: seq<Order>, st: Settings, from: nat, now: nat): Agenda {
    if !Fills(a, requested, orders) then a else Bind(Release(a, requested), requested, orders, st, from, now)
  }

  // ---------------------------------------------------------------- dispatch

  predicate StandsAt(text: string, part: string, i: nat) { i + |part| <= |text| && text[i..i + |part|] == part }

  predicate Contains(text: string, part: string) { exists i :: 0 <= i <= |text| && StandsAt(text, part, i) }

  /** The notice shows a message of somebody else, as it is now. */
  predicate FromOther(x: Inputs, n: W.Notice) {
    && n.kind == W.OfMessage && n.entity in x.said && n.entity in x.store.messages
    && !x.said[n.entity].deleted && x.said[n.entity].author != x.owner && x.store.messages[n.entity] == n.version
  }

  function TextOf(x: Inputs, n: W.Notice): string {
    if FromOther(x, n) then x.said[n.entity].text
    else if n.kind == W.OfSource && n.entity in x.written && n.entity in x.store.sources && |x.store.sources[n.entity]| == n.version then x.written[n.entity]
    else ""
  }

  predicate Meets(x: Inputs, c: Condition, n: W.Notice) {
    match c
    case AtTime(_) => false
    case NewMessage => FromOther(x, n)
    case AnswerFrom(who) => FromOther(x, n) && x.said[n.entity].author == who
    case RelatedTopic(topic) => TextOf(x, n) != "" && Contains(x.normal(TextOf(x, n)), x.normal(topic))
  }

  /** The notice of the match is still the present version of something the owner may read. */
  predicate Live(x: Inputs, n: W.Notice, version: nat) {
    match n.kind
    case OfMessage => n.entity in x.said && n.entity in x.store.messages && !x.said[n.entity].deleted && x.store.messages[n.entity] == version
    case OfSource => n.entity in x.store.sources && |x.store.sources[n.entity]| == version && W.Readable(x.store, x.owner, n.entity)
  }

  predicate StillHolds(x: Inputs, m: Match) { exists n :: n in x.store.log && n.id == m.input && n.version == m.version && Live(x, n, m.version) }

  /** The notices that a pass may look at, in order. */
  function Unseen(x: Inputs, log: seq<W.Notice>, after: nat): seq<W.Notice> {
    if log == [] then [] else (if log[0].id > after && W.Visible(x.store, x.owner, log[0]) then [log[0]] else []) + Unseen(x, log[1..], after)
  }

  /** The part of them that one pass looks at. */
  function Rows(x: Inputs, after: nat): seq<W.Notice> { First100(Unseen(x, x.store.log, after)) }

  function First100<T>(s: seq<T>): seq<T> { if |s| <= 100 then s else s[..100] }

  /** Checks notices in order up to the first that meets the condition. */
  function Scan(p: Plan, rows: seq<W.Notice>, x: Inputs): Plan
    decreases |rows|
  {
    if rows == [] then p
    else
      var seen := p.(checkedInput := rows[0].id);
      if Meets(x, p.condition, rows[0]) then seen.(status := TRIGGERED, matched := Some(Match(rows[0].id, rows[0].version))) else Scan(seen, rows[1..], x)
  }

  predicate Stands(p: Plan, x: Inputs) { p.matched.None? || StillHolds(x, p.matched.value) }

  function Recheck(p: Plan, x: Inputs): Plan {
    if p.status == TRIGGERED && !Stands(p, x) then p.(status := PENDING, matched := None, notified := false) else p
  }

  function Looked(p: Plan, st: Settings, x: Inputs, now: nat): Plan {
    var q := Recheck(p, x);
    if q.status != PENDING then q
    else if q.condition.AtTime? then
      var due := Max(q.effectiveAt.GetOr(0), q.createdAt + st.minimumMs);
      var dated := q.(effectiveAt := Some(due));
      if st.selfWake && now >= due then dated.(status := TRIGGERED) else dated
    else Scan(q, Rows(x, q.checkedInput), x)
  }

  function Doubted(a: Agenda, x: Inputs): set<PlanId> { set p | p in a.plans && Active(a, p) && a.plans[p].status == TRIGGERED && !Stands(a.plans[p], x) }

  function LookedAll(a: Agenda, st: Settings, x: Inputs, now: nat): Agenda {
    a.(plans := map p | p in a.plans :: if Active(a, p) then Looked(a.plans[p], st, x, now) else a.plans[p], withdrawals := a.withdrawals + |Doubted(a, x)|)
  }

  function Signals(a: Agenda, st: Settings): set<PlanId> {
    set p | p in a.plans && Active(a, p) && a.plans[p].status == TRIGGERED && !a.plans[p].notified && (st.selfWake || !a.plans[p].condition.AtTime?)
  }

  /** One wake for all signals that have not been announced, at most once per interval. */
  function Announce(a: Agenda, st: Settings, now: nat): Agenda {
    if now < NextAt(a, st) || Signals(a, st) == {} then a
    else
      var signals := Signals(a, st);
      a.(plans := map p | p in a.plans :: if p in signals then a.plans[p].(notified := true) else a.plans[p], lastWake := Some(now), wakes := a.wakes + [now])
  }

  function Dispatch(a: Agenda, st: Settings, x: Inputs, now: nat): Agenda { Announce(LookedAll(a, st, x, now), st, now) }

  // ---------------------------------------------------------------- consuming

  predicate Reusable(a: Agenda, signals: seq<Signal>, x: Inputs) {
    forall s :: s in signals ==> s.plan in a.plans && a.plans[s.plan].status == TRIGGERED && a.plans[s.plan].matched == s.matched && Stands(a.plans[s.plan], x)
  }

  predicate Named(signals: seq<Signal>, p: PlanId) { exists s :: s in signals && s.plan == p }

  /** A participation run consumes what its request announced; `whole` says that input and coverage were complete. */
  function Complete(a: Agenda, signals: seq<Signal>, x: Inputs, whole: bool): Agenda {
    if !Reusable(a, signals, x) || !whole then a
    else a.(plans := map p | p in a.plans :: if Named(signals, p) && a.plans[p].status == TRIGGERED then a.plans[p].(status := CONSUMED) else a.plans[p])
  }

  function EndSession(a: Agenda): Agenda {
    a.(plans := map p | p in a.plans :: if Open(a.plans[p].status) then a.plans[p].(status := CANCELLED) else a.plans[p])
  }

  // ---------------------------------------------------------------- histories

  datatype Event =
    | Syncing(requested: map<EntryId, Condition>, orders: seq<Order>, from: nat)
    | Dispatching(x: Inputs)
    | Completing(signals: seq<Signal>, y: Inputs, whole: bool)
    | Ending

  datatype Timed = Timed(event: Event, st: Settings, now: nat)

  ghost function Next(a: Agenda, t: Timed): Agenda {
    match t.event
    case Syncing(requested, orders, from) => Sync(a, requested, orders, t.st, from, t.now)
    case Dispatching(x) => Dispatch(a, t.st, x, t.now)
    case Completing(signals, y, whole) => Complete(a, signals, y, whole)
    case Ending => EndSession(a)
  }

  ghost function Run(a: Agenda, events: seq<Timed>): Agenda
    decreases |events|
  {
    if events == [] then a else Run(Next(a, events[0]), events[1..])
  }

  const Blank: Agenda := Agenda(map[], map[], None, [], 0)

  // ---------------------------------------------------------------- wakes are accounted for

  function Announced(a: Agenda): set<PlanId> { set p | p in a.plans && a.plans[p].notified }

  /** Every wake announced a plan that no wake had announced since its last withdrawal. */
  ghost predicate Accounted(a: Agenda) { |a.wakes| <= |Announced(a)| + a.withdrawals }

  lemma {:induction false} BindKeeps(a: Agenda, requested: map<EntryId, Condition>, orders: seq<Order>, st: Settings, from: nat, now: nat)
    requires forall o :: o in orders ==> o.entry in requested && o.id !in a.plans
    ensures var a' := Bind(a, requested, orders, st, from, now);
      && a'.wakes == a.wakes && a'.lastWake == a.lastWake && a'.withdrawals == a.withdrawals
      && (forall p :: p in a.plans ==> p in a'.plans && a'.plans[p] == a.plans[p])
      && (forall p :: p in a'.plans && p !in a.plans ==> Made(a, requested, orders, st, from, now, p, a'.plans[p]))
  {
    if orders != [] {
      var k := |orders| - 1;
      assert orders[k] in orders;
      BindKeeps(a, requested, orders[..k], st, from, now);
      var before, a' := Bind(a, requested, orders[..k], st, from, now), Bind(a, requested, orders, st, from, now);
      forall p | p in a'.plans && p !in a.plans ensures Made(a, requested, orders, st, from, now, p, a'.plans[p]) {
        if p != orders[k].id { assert Made(a, requested, orders[..k], st, from, now, p, before.plans[p]); }
      }
    }
  }

  /** The plan was made for one of the orders. */
  ghost predicate Made(a: Agenda, requested: map<EntryId, Condition>, orders: seq<Order>, st: Settings, from: nat, now: nat, p: PlanId, row: Plan) {
    exists o :: o in orders && o.id == p && o.entry in requested && row == NewPlan(a, o.entry, requested[o.entry], st, from, now)
  }

  lemma {:induction false} BindPoints(a: Agenda, requested: map<EntryId, Condition>, orders: seq<Order>, st: Settings, from: nat, now: nat, e: EntryId)
    requires forall o :: o in orders ==> o.entry in requested
    requires e in a.bindings && forall o :: o in orders ==> o.entry != e
    ensures var a' := Bind(a, requested, orders, st, from, now); e in a'.bindings && a'.bindings[e] == a.bindings[e]
  {
    if orders != [] {
      assert orders[|orders| - 1] in orders;
      BindPoints(a, requested, orders[..|orders| - 1], st, from, now, e);
    }
  }

  lemma SyncFacts(a: Agenda, requested: map<EntryId, Condition>, orders: seq<Order>, st: Settings, from: nat, now: nat)
    requires Fills(a, requested, orders)
    ensures var a' := Sync(a, requested, orders, st, from, now);
      && a'.wakes == a.wakes && a'.lastWake == a.lastWake && a'.withdrawals == a.withdrawals
      && (forall p :: p in a.plans ==> p in a'.plans && a'.plans[p] == Release(a, requested).plans[p])
      && (forall p :: p in a'.plans && p !in a.plans ==> Made(Release(a, requested), requested, orders, st, from, now, p, a'.plans[p]))
  {
    hide Bind, Kept;
    forall o | o in orders ensures o.entry in requested && o.id !in Release(a, requested).plans {}
    BindKeeps(Release(a, requested), requested, orders, st, from, now);
  }

  lemma SameAnnounced(a: Agenda, a': Agenda)
    requires forall p :: p in a.plans ==> p in a'.plans && a'.plans[p].notified == a.plans[p].notified
    requires forall p :: p in a'.plans && p !in a.plans ==> !a'.plans[p].notified
    ensures Announced(a') == Announced(a)
  {
  }

  lemma SyncAccounts(a: Agenda, requested: map<EntryId, Condition>, orders: seq<Order>, st: Settings, from: nat, now: nat)
    requires Accounted(a)
    ensures Accounted(Sync(a, requested, orders, st, from, now))
  {
    hide Bind, Sync, Fills, Kept;
    SyncOrNot(a, requested, orders, st, from, now);
    if Fills(a, requested, orders) {
      SyncFacts(a, requested, orders, st, from, now);
      SameAnnounced(a, Sync(a, requested, orders, st, from, now));
    }
  }

  lemma SyncOrNot(a: Agenda, requested: map<EntryId, Condition>, orders: seq<Order>, st: Settings, from: nat, now: nat)
    ensures !Fills(a, requested, orders) ==> Sync(a, requested, orders, st, from, now) == a
  {
  }

  lemma {:induction false} ScanKeeps(p: Plan, rows: seq<W.Notice>, x: Inputs)
    ensures var q := Scan(p, rows, x);
      q.entry == p.entry && q.condition == p.condition && q.notified == p.notified && (p.status == PENDING ==> Open(q.status))
    decreases |rows|
  {
    if rows != [] { ScanKeeps(p.(checkedInput := rows[0].id), rows[1..], x); }
  }

  lemma LookedKeeps(p: Plan, st: Settings, x: Inputs, now: nat)
    requires Open(p.status)
    ensures var q := Looked(p, st, x, now);
      && q.entry == p.entry && q.condition == p.condition && Open(q.status)
      && q.notified == (p.notified && !(p.status == TRIGGERED && !Stands(p, x)))
  {
    var q := Recheck(p, x);
    ScanKeeps(q, Rows(x, q.checkedInput), x);
  }

  lemma LookingAccounts(a: Agenda, st: Settings, x: Inputs, now: nat)
    requires Accounted(a)
    ensures Accounted(LookedAll(a, st, x, now)) && LookedAll(a, st, x, now).wakes == a.wakes
  {
    hide Looked;
    var a' := LookedAll(a, st, x, now);
    forall p | p in a.plans ensures a'.plans[p].notified == (a.plans[p].notified && p !in Doubted(a, x)) {
      if Active(a, p) { LookedKeeps(a.plans[p], st, x, now); }
    }
    assert Announced(a') == Announced(a) - Doubted(a, x);
    Fewer(Announced(a), Doubted(a, x));
  }

  lemma Fewer(s: set<PlanId>, gone: set<PlanId>)
    ensures |s - gone| + |gone| >= |s|
  {
    assert s == (s - gone) + (s * gone);
    assert gone == (s * gone) + (gone - s);
  }

  lemma AnnouncingAccounts(a: Agenda, st: Settings, now: nat)
    requires Accounted(a)
    ensures Accounted(Announce(a, st, now))
  {
    var a' := Announce(a, st, now);
    if a' != a {
      assert Announced(a') == Announced(a) + Signals(a, st) && Announced(a) !! Signals(a, st);
    }
  }

  lemma NextAccounts(a: Agenda, t: Timed)
    requires Accounted(a)
    ensures Accounted(Next(a, t))
  {
    hide Sync, LookedAll, Announce;
    match t.event
    case Syncing(requested, orders, from) => SyncAccounts(a, requested, orders, t.st, from, t.now);
    case Dispatching(x) => LookingAccounts(a, t.st, x, t.now); AnnouncingAccounts(LookedAll(a, t.st, x, t.now), t.st, t.now);
    case Completing(signals, y, whole) => SameAnnounced(a, Complete(a, signals, y, whole));
    case Ending => SameAnnounced(a, EndSession(a));
  }

  /** However often dispatch runs, there are at most as many wakes as plans were made and matches withdrawn. */
  lemma {:induction false} WakesAreAccounted(a: Agenda, events: seq<Timed>)
    requires Accounted(a)
    ensures Accounted(Run(a, events)) && |Run(a, events).wakes| <= |Run(a, events).plans| + Run(a, events).withdrawals
    decreases |events|
  {
    hide Next;
    if events == [] {
      assert Announced(a) <= a.plans.Keys;
      Subset(Announced(a), a.plans.Keys);
    } else {
      NextAccounts(a, events[0]);
      WakesAreAccounted(Next(a, events[0]), events[1..]);
    }
  }

  lemma Subset(small: set<PlanId>, large: set<PlanId>)
    requires small <= large
    ensures |small| <= |large|
  {
    assert large == small + (large - small);
  }

  // ---------------------------------------------------------------- one shot

  /** A plan that is over stays as it is, and no plan changes its entry or its condition. */
  ghost predicate OverStays(a: Agenda, a': Agenda) { forall p :: p in a.plans ==> p in a'.plans && Continues(a.plans[p], a'.plans[p]) }

  predicate Continues(p: Plan, p': Plan) { p'.entry == p.entry && p'.condition == p.condition && (!Open(p.status) ==> p' == p) }

  lemma NextOverStays(a: Agenda, t: Timed)
    ensures OverStays(a, Next(a, t))
  {
    hide Sync, Looked, Bind, Kept, Fills;
    match t.event
    case Syncing(requested, orders, from) =>
      SyncOrNot(a, requested, orders, t.st, from, t.now);
      if Fills(a, requested, orders) { SyncFacts(a, requested, orders, t.st, from, t.now); }
    case Dispatching(x) =>
      forall p | p in a.plans && Active(a, p) ensures Continues(a.plans[p], Looked(a.plans[p], t.st, x, t.now)) { LookedKeeps(a.plans[p], t.st, x, t.now); }
    case Completing(_, _, _) =>
    case Ending =>
  }

  /** A consumed or cancelled plan is over for good. */
  lemma {:induction false} OverIsForGood(a: Agenda, events: seq<Timed>)
    ensures OverStays(a, Run(a, events))
    decreases |events|
  {
    hide Next;
    if events != [] {
      NextOverStays(a, events[0]);
      OverIsForGood(Next(a, events[0]), events[1..]);
      var mid, last := Next(a, events[0]), Run(a, events);
      forall p | p in a.plans ensures p in last.plans && Continues(a.plans[p], last.plans[p]) {
        assert Continues(a.plans[p], mid.plans[p]) && Continues(mid.plans[p], last.plans[p]);
      }
    }
  }

  /** The plans that were ever made for an entry. */
  function PlansFor(a: Agenda, e: EntryId): set<PlanId> { set p | p in a.plans && a.plans[p].entry == e }

  /** Entry e is bound to the plan of condition c. */
  ghost predicate Armed(a: Agenda, e: EntryId, c: Condition) { e in a.bindings && a.bindings[e] in a.plans && a.plans[a.bindings[e]].entry == e && a.plans[a.bindings[e]].condition == c }

  /** Every synchronization still asks for this condition in this entry. */
  predicate StillAsks(t: Timed, e: EntryId, c: Condition) { t.event.Syncing? ==> e in t.event.requested && t.event.requested[e] == c }

  lemma SyncRearmsNothing(a: Agenda, requested: map<EntryId, Condition>, orders: seq<Order>, st: Settings, from: nat, now: nat, e: EntryId, c: Condition)
    requires Armed(a, e, c) && e in requested && requested[e] == c
    ensures var a' := Sync(a, requested, orders, st, from, now); Armed(a', e, c) && a'.bindings[e] == a.bindings[e] && PlansFor(a', e) == PlansFor(a, e)
  {
    hide Bind;
    if Fills(a, requested, orders) {
      SyncFacts(a, requested, orders, st, from, now);
      forall o | o in orders ensures o.entry != e {}
      BindPoints(Release(a, requested), requested, orders, st, from, now, e);
    }
  }

  lemma OthersRearmNothing(a: Agenda, t: Timed, e: EntryId, c: Condition)
    requires Armed(a, e, c) && !t.event.Syncing?
    ensures var a' := Next(a, t); Armed(a', e, c) && a'.bindings == a.bindings && PlansFor(a', e) == PlansFor(a, e)
  {
    NextOverStays(a, t);
    hide Looked;
    var a' := Next(a, t);
    assert a'.plans.Keys == a.plans.Keys;
    forall p | p in a.plans ensures a'.plans[p].entry == a.plans[p].entry { assert Continues(a.plans[p], a'.plans[p]); }
    assert Continues(a.plans[a.bindings[e]], a'.plans[a.bindings[e]]);
  }

  /** As long as an entry keeps asking for the same condition it never gets a second plan, not even after its plan was consumed. */
  lemma {:induction false} OnePlanPerCondition(a: Agenda, events: seq<Timed>, e: EntryId, c: Condition)
    requires Armed(a, e, c) && forall i :: 0 <= i < |events| ==> StillAsks(events[i], e, c)
    ensures var a' := Run(a, events); Armed(a', e, c) && a'.bindings[e] == a.bindings[e] && PlansFor(a', e) == PlansFor(a, e)
    decreases |events|
  {
    hide Next, Armed, PlansFor;
    if events != [] {
      var t := events[0];
      if t.event.Syncing? { SyncRearmsNothing(a, t.event.requested, t.event.orders, t.st, t.event.from, t.now, e, c); StepIsSync(a, t); } else { OthersRearmNothing(a, t, e, c); }
      ArmedIsBound(a, e, c);
      ArmedIsBound(Next(a, t), e, c);
      OnePlanPerCondition(Next(a, t), events[1..], e, c);
      ArmedIsBound(Run(a, events), e, c);
    }
    ArmedIsBound(a, e, c);
  }

  lemma StepIsSync(a: Agenda, t: Timed)
    requires t.event.Syncing?
    ensures Next(a, t) == Sync(a, t.event.requested, t.event.orders, t.st, t.event.from, t.now)
  {
  }

  lemma ArmedIsBound(a: Agenda, e: EntryId, c: Condition)
    requires Armed(a, e, c)
    ensures e in a.bindings
  {
  }

  // ---------------------------------------------------------------- what wakes an owner

  lemma {:induction false} UnseenFacts(x: Inputs, log: seq<W.Notice>, after: nat)
    ensures forall n :: n in Unseen(x, log, after) <==> n in log && n.id > after && W.Visible(x.store, x.owner, n)
  {
    if log != [] {
      UnseenFacts(x, log[1..], after);
      forall n ensures n in log <==> n == log[0] || n in log[1..] {}
    }
  }

  lemma {:induction false} ScanFindsFirst(p: Plan, rows: seq<W.Notice>, x: Inputs)
    requires p.status == PENDING && p.matched.None?
    ensures var q := Scan(p, rows, x);
      if q.status == TRIGGERED then
        exists i :: 0 <= i < |rows| && FirstMeets(x, p.condition, rows, i) && q.matched == Some(Match(rows[i].id, rows[i].version)) && q.checkedInput == rows[i].id
      else
        q.status == PENDING && q.matched.None? && (forall i :: 0 <= i < |rows| ==> !Meets(x, p.condition, rows[i]))
        && q.checkedInput == if rows == [] then p.checkedInput else rows[|rows| - 1].id
    decreases |rows|
  {
    hide Meets;
    if rows != [] && Meets(x, p.condition, rows[0]) {
      assert FirstMeets(x, p.condition, rows, 0);
    } else if rows != [] {
      var rest, q := rows[1..], Scan(p, rows, x);
      ScanFindsFirst(p.(checkedInput := rows[0].id), rest, x);
      if q.status == TRIGGERED {
        var i :| 0 <= i < |rest| && FirstMeets(x, p.condition, rest, i) && q.matched == Some(Match(rest[i].id, rest[i].version)) && q.checkedInput == rest[i].id;
        assert FirstMeets(x, p.condition, rows, i + 1);
      } else {
        forall i | 0 <= i < |rows| ensures !Meets(x, p.condition, rows[i]) { if i > 0 { assert rows[i] == rest[i - 1]; } }
      }
    }
  }

  predicate FirstMeets(x: Inputs, c: Condition, rows: seq<W.Notice>, i: nat) {
    i < |rows| && Meets(x, c, rows[i]) && forall j :: 0 <= j < i ==> !Meets(x, c, rows[j])
  }

  /** What meets a condition is present and readable, so the match that it gives stands. */
  lemma MeetsStands(x: Inputs, c: Condition, n: W.Notice)
    requires n in x.store.log && W.Visible(x.store, x.owner, n) && Meets(x, c, n)
    ensures StillHolds(x, Match(n.id, n.version))
  {
    assert Live(x, n, n.version);
  }

  /** A plan waits without a match or has been triggered, by time or by a notice. */
  predicate Fitting(p: Plan) { (p.status == PENDING ==> p.matched.None? && !p.notified) && (p.condition.AtTime? ==> p.matched.None?) && (p.status == TRIGGERED && p.matched.None? ==> p.condition.AtTime?) }

  ghost predicate AllFit(a: Agenda) { forall p :: p in a.plans ==> Fitting(a.plans[p]) }

  lemma LookedStands(p: Plan, st: Settings, x: Inputs, now: nat)
    requires Fitting(p) && Open(p.status)
    ensures var q := Looked(p, st, x, now); Fitting(q) && (q.status == TRIGGERED ==> Stands(q, x))
  {
    hide Meets, StillHolds, W.Visible;
    var q := Recheck(p, x);
    if q.status == PENDING && !q.condition.AtTime? {
      var rows := Rows(x, q.checkedInput);
      ScanKeeps(q, rows, x);
      ScanFindsFirst(q, rows, x);
      ScanNotifies(q, rows, x);
      UnseenFacts(x, x.store.log, q.checkedInput);
      var after := Scan(q, rows, x);
      if after.status == TRIGGERED {
        var i :| 0 <= i < |rows| && FirstMeets(x, q.condition, rows, i) && after.matched == Some(Match(rows[i].id, rows[i].version)) && after.checkedInput == rows[i].id;
        assert rows[i] in Unseen(x, x.store.log, q.checkedInput);
        MeetsStands(x, q.condition, rows[i]);
      }
    }
  }

  lemma {:induction false} ScanNotifies(p: Plan, rows: seq<W.Notice>, x: Inputs)
    ensures Scan(p, rows, x).notified == p.notified && Scan(p, rows, x).condition == p.condition
    decreases |rows|
  {
    if rows != [] { ScanNotifies(p.(checkedInput := rows[0].id), rows[1..], x); }
  }

  lemma NextFits(a: Agenda, t: Timed)
    requires AllFit(a)
    ensures AllFit(Next(a, t))
  {
    hide Sync, Looked, Bind, Kept, Fills;
    match t.event
    case Syncing(requested, orders, from) =>
      SyncOrNot(a, requested, orders, t.st, from, t.now);
      if Fills(a, requested, orders) { SyncFacts(a, requested, orders, t.st, from, t.now); }
    case Dispatching(x) =>
      forall p | p in a.plans && Active(a, p) ensures Fitting(Looked(a.plans[p], t.st, x, t.now)) { LookedStands(a.plans[p], t.st, x, t.now); }
    case Completing(_, _, _) =>
    case Ending =>
  }

  lemma {:induction false} RunFits(a: Agenda, events: seq<Timed>)
    requires AllFit(a)
    ensures AllFit(Run(a, events))
    decreases |events|
  {
    hide Next, AllFit;
    if events != [] {
      NextFits(a, events[0]);
      RunFits(Next(a, events[0]), events[1..]);
    }
  }

  /** In every reachable state, when a pass is over, every plan that stands announced was triggered by the time it asked for, or by a notice
      that is still the present version of a message that is not deleted, or of a source that its owner may read. */
  lemma AnnouncedMatchesStand(events: seq<Timed>, st: Settings, x: Inputs, now: nat, p: PlanId)
    requires var a' := Dispatch(Run(Blank, events), st, x, now); p in a'.plans && Active(a', p) && a'.plans[p].notified
    ensures var q := Dispatch(Run(Blank, events), st, x, now).plans[p];
      q.status == TRIGGERED && if q.condition.AtTime? then q.matched.None? else q.matched.Some? && StillHolds(x, q.matched.value)
  {
    hide Looked, StillHolds;
    var a := Run(Blank, events);
    RunFits(Blank, events);
    LookedStands(a.plans[p], st, x, now);
    assert Fitting(Looked(a.plans[p], st, x, now));
  }

  /** A pass over a waiting plan triggers it exactly when one of the notices it looks at meets the condition, with the first that does; the
      notices before it are never looked at again. */
  lemma LookFindsFirst(p: Plan, st: Settings, x: Inputs, now: nat)
    requires p.status == PENDING && Fitting(p) && !p.condition.AtTime?
    ensures var q, rows := Looked(p, st, x, now), Rows(x, p.checkedInput);
      && (q.status == TRIGGERED <==> exists n :: n in rows && Meets(x, p.condition, n))
      && (q.status == TRIGGERED ==> exists i :: 0 <= i < |rows| && FirstMeets(x, p.condition, rows, i) && q.matched == Some(Match(rows[i].id, rows[i].version)) && q.checkedInput == rows[i].id)
      && (q.status != TRIGGERED ==> q.checkedInput == if rows == [] then p.checkedInput else rows[|rows| - 1].id)
    ensures forall n :: n in Unseen(x, x.store.log, p.checkedInput) <==> n in x.store.log && n.id > p.checkedInput && W.Visible(x.store, x.owner, n)
  {
    hide Meets, W.Visible;
    ScanFindsFirst(p, Rows(x, p.checkedInput), x);
    UnseenFacts(x, x.store.log, p.checkedInput);
  }

  // ---------------------------------------------------------------- the end of a session

  ghost predicate Silent(a: Agenda) { forall p :: p in a.plans ==> !Open(a.plans[p].status) }

  lemma NextIsSilent(a: Agenda, t: Timed)
    requires Silent(a) && !t.event.Syncing?
    ensures Silent(Next(a, t)) && Next(a, t).wakes == a.wakes && Next(a, t).plans == a.plans
  {
    hide Looked;
    assert Next(a, t).plans == a.plans;
  }

  lemma {:induction false} SilenceHolds(a: Agenda, events: seq<Timed>)
    requires Silent(a) && forall t :: t in events ==> !t.event.Syncing?
    ensures Run(a, events).wakes == a.wakes && Run(a, events).plans == a.plans
    decreases |events|
  {
    hide Next, Silent;
    if events != [] {
      assert events[0] in events;
      NextIsSilent(a, events[0]);
      SilenceHolds(Next(a, events[0]), events[1..]);
    }
  }

  /** When a session has ended, no plan is open, a consumed plan is still consumed, and unless the owner's state is synchronized again no
      plan changes and nothing ever wakes the owner, whatever is dispatched or completed. */
  lemma EndedIsSilent(a: Agenda, events: seq<Timed>)
    requires forall t :: t in events ==> !t.event.Syncing?
    ensures var ended, later := EndSession(a), Run(EndSession(a), events);
      && later.wakes == a.wakes && later.plans == ended.plans && later.plans.Keys == a.plans.Keys
      && forall p :: p in a.plans ==> later.plans[p].status == if a.plans[p].status == CONSUMED then CONSUMED else CANCELLED
  {
    SilenceHolds(EndSession(a), events);
  }

  // ---------------------------------------------------------------- the rate of wakes

  /** Wakes lie at least the minimum interval apart, and the clock remembers the last. */
  ghost predicate Spaced(a: Agenda, minimumMs: nat) {
    && (forall i :: 0 < i < |a.wakes| ==> a.wakes[i] >= a.wakes[i - 1] + minimumMs)
    && (a.wakes != [] ==> a.lastWake == Some(a.wakes[|a.wakes| - 1]))
  }

  lemma NextSpaces(a: Agenda, t: Timed)
    requires Spaced(a, t.st.minimumMs)
    ensures Spaced(Next(a, t), t.st.minimumMs)
  {
    hide Looked, Doubted, Signals, Sync, Fills;
    if t.event.Syncing? {
      SyncOrNot(a, t.event.requested, t.event.orders, t.st, t.event.from, t.now);
      if Fills(a, t.event.requested, t.event.orders) { SyncFacts(a, t.event.requested, t.event.orders, t.st, t.event.from, t.now); }
    }
  }

  lemma {:induction false} WakesAreSpaced(a: Agenda, events: seq<Timed>, minimumMs: nat)
    requires Spaced(a, minimumMs) && forall i :: 0 <= i < |events| ==> events[i].st.minimumMs == minimumMs
    ensures Spaced(Run(a, events), minimumMs)
    decreases |events|
  {
    hide Next, Spaced;
    if events != [] {
      NextSpaces(a, events[0]);
      WakesAreSpaced(Next(a, events[0]), events[1..], minimumMs);
    }
  }

  lemma {:induction false} SpacedSpan(a: Agenda, minimumMs: nat, i: nat, j: nat)
    requires Spaced(a, minimumMs) && i <= j < |a.wakes|
    ensures a.wakes[j] >= a.wakes[i] + (j - i) * minimumMs
    decreases j - i
  {
    if i < j {
      SpacedSpan(a, minimumMs, i, j - 1);
      assert (j - i) * minimumMs == (j - 1 - i) * minimumMs + minimumMs;
    }
  }

  /** With a fixed minimum interval, any span of length L holds at most 1 + L / minimum wakes: if the wakes i to j all lie within it,
      there are no more of them. */
  lemma WakesAreRare(events: seq<Timed>, minimumMs: nat, i: nat, j: nat, from: nat, length: nat)
    requires minimumMs > 0 && forall k :: 0 <= k < |events| ==> events[k].st.minimumMs == minimumMs
    requires i <= j < |Run(Blank, events).wakes| && from <= Run(Blank, events).wakes[i] && Run(Blank, events).wakes[j] <= from + length
    ensures j - i + 1 <= 1 + length / minimumMs
  {
    WakesAreSpaced(Blank, events, minimumMs);
    SpacedSpan(Run(Blank, events), minimumMs, i, j);
    Quotient(j - i, minimumMs, length);
  }

  lemma Quotient(n: nat, d: nat, length: nat)
    requires d > 0 && n * d <= length
    ensures n <= length / d
  {
    var q := length / d;
    assert length == q * d + length % d && length < (q + 1) * d;
    Product(q + 1, n, d);
  }

  lemma Product(a: nat, b: nat, d: nat)
    ensures a <= b ==> a * d <= b * d
  {
    if a <= b { assert b * d == a * d + (b - a) * d; }
  }

  // ---------------------------------------------------------------- the object

  class AgentAgenda {
    var plans: map<PlanId, Plan>
    var bindings: map<EntryId, PlanId>
    var lastWake: Option<nat>
    ghost var wakes: seq<nat>
    ghost var withdrawals: nat

    ghost function Now(): Agenda
      reads this
    {
      Agenda(plans, bindings, lastWake, wakes, withdrawals)
    }

    constructor ()
      ensures Now() == Blank
    {
      plans, bindings, lastWake, wakes, withdrawals := map[], map[], None, [], 0;
    }

    /** Foreign keys: every binding points to a plan of its own entry. */
    ghost predicate Valid()
      reads this
    {
      BindingsOk(Now())
    }

    /** Cancels and unbinds the plans whose condition the state no longer asks for. */
    method Withdraw(requested: map<EntryId, Condition>)
      requires Valid()
      modifies this`plans, this`bindings
      ensures Now() == Release(old(Now()), requested)
    {
      hide Withdrawing;
      ghost var was := Now();
      var todo := set p | p in plans && plans[p].entry in bindings && bindings[plans[p].entry] == p;
      ghost var all, seen: set<PlanId> := todo, {};
      WithdrawingNothing(was, requested);
      while todo != {}
        invariant seen !! todo && seen + todo == all == set p | p in was.plans && Bound(was, p)
        invariant Now() == Withdrawing(was, requested, seen)
        decreases todo
      {
        var p :| p in todo;
        todo := todo - {p};
        WithdrawingOneMore(was, requested, seen, p);
        var e := plans[p].entry;
        if !(e in requested && requested[e] == plans[p].condition) {
          if Open(plans[p].status) { plans := plans[p := plans[p].(status := CANCELLED)]; }
          bindings := bindings - {e};
        }
        seen := seen + {p};
      }
      WithdrawingAll(was, requested, seen);
    }

    /** The owner's state asks for these conditions; orders names a fresh plan id for every entry whose condition is new. */
    method SyncPlans(requested: map<EntryId, Condition>, orders: seq<Order>, st: Settings, from: nat, now: nat)
      requires Valid() && Fills(Now(), requested, orders)
      modifies this`plans, this`bindings
      ensures Now() == Sync(old(Now()), requested, orders, st, from, now)
    {
      hide Release;
      ghost var was := Now();
      Withdraw(requested);
      ghost var released := Now();
      ReleaseKeepsClock(was, requested);
      var i := 0;
      assert orders[..0] == [];
      while i < |orders|
        invariant i <= |orders| && forall o :: o in orders ==> o.entry in requested
        invariant Now() == Bind(released, requested, orders[..i], st, from, now) && lastWake == released.lastWake
      {
        assert orders[..i + 1][..i] == orders[..i] && orders[i] in orders;
        var o := orders[i];
        var condition := requested[o.entry];
        var next := if lastWake.Some? then lastWake.value + st.minimumMs else 0;
        var due := if condition.AtTime? then Some(Max(condition.notBefore, Max(now + st.minimumMs, next))) else None;
        plans := plans[o.id := Plan(o.entry, condition, PENDING, from, due, None, false, now)];
        bindings := bindings[o.entry := o.id];
        i := i + 1;
      }
      assert orders[..i] == orders;
    }

    /** One plan's part of a pass. */
    method Look(p: Plan, st: Settings, x: Inputs, now: nat) returns (q: Plan)
      ensures q == Looked(p, st, x, now)
    {
      q := p;
      if q.status == TRIGGERED && !Stands(q, x) { q := q.(status := PENDING, matched := None, notified := false); }
      if q.status != PENDING { return; }
      if q.condition.AtTime? {
        var due := Max(q.effectiveAt.GetOr(0), q.createdAt + st.minimumMs);
        q := q.(effectiveAt := Some(due));
        if st.selfWake && now >= due { q := q.(status := TRIGGERED); }
        return;
      }
      var rows := Rows(x, q.checkedInput);
      ghost var start := q;
      var i := 0;
      while i < |rows|
        invariant i <= |rows| && q.condition == start.condition && Scan(q, rows[i..], x) == Scan(start, rows, x)
      {
        var input := rows[i];
        q := q.(checkedInput := input.id);
        if Meets(x, q.condition, input) {
          q := q.(status := TRIGGERED, matched := Some(Match(input.id, input.version)));
          return;
        }
        i := i + 1;
      }
    }

    /** True for the one wake that this pass gives. */
    method DispatchPlans(st: Settings, x: Inputs, now: nat) returns (wake: bool)
      modifies this
      ensures Now() == Dispatch(old(Now()), st, x, now)
      ensures wake == (wakes != old(wakes))
    {
      hide Looked, Announce;
      ghost var was := Now();
      LookAtAll(st, x, now);
      withdrawals := withdrawals + |Doubted(was, x)|;
      wake := AnnounceSignals(st, now);
    }

    method LookAtAll(st: Settings, x: Inputs, now: nat)
      modifies this`plans
      ensures plans == LookedAll(old(Now()), st, x, now).plans
    {
      hide Looked;
      ghost var was := Now();
      var todo := set p | p in plans && plans[p].entry in bindings && bindings[plans[p].entry] == p && Open(plans[p].status);
      ghost var all := todo;
      while todo != {}
        invariant todo <= all == (set p | p in was.plans && Active(was, p)) && plans.Keys == was.plans.Keys
        invariant forall p :: p in was.plans ==> plans[p] == if p in all - todo then Looked(was.plans[p], st, x, now) else was.plans[p]
        decreases todo
      {
        var p :| p in todo;
        todo := todo - {p};
        var q := Look(plans[p], st, x, now);
        plans := plans[p := q];
      }
      assert plans == LookedAll(was, st, x, now).plans;
    }

    method AnnounceSignals(st: Settings, now: nat) returns (wake: bool)
      modifies this
      ensures Now() == Announce(old(Now()), st, now)
      ensures wake == (wakes != old(wakes))
    {
      ghost var was := Now();
      if now < (if lastWake.Some? then lastWake.value + st.minimumMs else 0) { return false; }
      var signals := set p | p in plans && plans[p].entry in bindings && bindings[plans[p].entry] == p && plans[p].status == TRIGGERED && !plans[p].notified
                             && (st.selfWake || !plans[p].condition.AtTime?);
      assert signals == Signals(was, st);
      if signals == {} { return false; }
      MarkNotified(signals);
      lastWake := Some(now);
      wakes := wakes + [now];
      assert plans == Announce(was, st, now).plans;
      wake := true;
    }

    method MarkNotified(signals: set<PlanId>)
      requires signals <= plans.Keys
      modifies this`plans
      ensures plans == map p | p in old(plans) :: if p in signals then old(plans)[p].(notified := true) else old(plans)[p]
    {
      ghost var was := plans;
      var todo := signals;
      while todo != {}
        invariant todo <= signals && plans.Keys == was.Keys
        invariant forall p :: p in was ==> plans[p] == if p in signals - todo then was[p].(notified := true) else was[p]
        decreases todo
      {
        var p :| p in todo;
        todo := todo - {p};
        plans := plans[p := plans[p].(notified := true)];
      }
    }

    /** False if the announced opportunities are no longer what they were, which refuses the result. */
    method CompleteRun(signals: seq<Signal>, x: Inputs, whole: bool) returns (accepted: bool)
      modifies this`plans
      ensures accepted == Reusable(old(Now()), signals, x)
      ensures Now() == Complete(old(Now()), signals, x, whole)
    {
      ghost var was := Now();
      accepted := forall s :: s in signals ==> s.plan in plans && plans[s.plan].status == TRIGGERED && plans[s.plan].matched == s.matched && Stands(plans[s.plan], x);
      if !accepted || !whole { return; }
      var i := 0;
      while i < |signals|
        invariant i <= |signals| && plans.Keys == was.plans.Keys
        invariant forall p :: p in was.plans ==> plans[p] == if Named(signals[..i], p) && was.plans[p].status == TRIGGERED then was.plans[p].(status := CONSUMED) else was.plans[p]
      {
        assert signals[i] in signals;
        var p := signals[i].plan;
        assert signals[..i + 1] == signals[..i] + [signals[i]];
        forall q ensures Named(signals[..i + 1], q) <==> Named(signals[..i], q) || q == p { NamedGrows(signals, i, q); }
        if plans[p].status == TRIGGERED { plans := plans[p := plans[p].(status := CONSUMED)]; }
        i := i + 1;
      }
      assert signals[..i] == signals;
      assert plans == Complete(was, signals, x, whole).plans;
    }

    method End()
      modifies this`plans
      ensures Now() == EndSession(old(Now()))
    {
      ghost var was := plans;
      var todo := set p | p in plans && (plans[p].status == PENDING || plans[p].status == TRIGGERED);
      ghost var all := todo;
      while todo != {}
        invariant todo <= all == (set p | p in was && Open(was[p].status)) && plans.Keys == was.Keys
        invariant forall p :: p in was ==> plans[p] == if p in all - todo then was[p].(status := CANCELLED) else was[p]
        decreases todo
      {
        var p :| p in todo;
        todo := todo - {p};
        plans := plans[p := plans[p].(status := CANCELLED)];
      }
      assert plans == EndSession(old(Now())).plans;
    }
  }

  ghost predicate BindingsOk(a: Agenda) { forall e :: e in a.bindings ==> a.bindings[e] in a.plans && a.plans[a.bindings[e]].entry == e }

  /** The withdrawal of those of the plans in `seen` whose condition is no longer asked for. */
  function Withdrawing(a: Agenda, requested: map<EntryId, Condition>, seen: set<PlanId>): Agenda {
    a.(plans := map p | p in a.plans :: if p in seen && Withdrawn(a, requested, p) && Open(a.plans[p].status) then a.plans[p].(status := CANCELLED) else a.plans[p],
       bindings := map e | e in a.bindings && (a.bindings[e] !in seen || Kept(a, requested, e)) :: a.bindings[e])
  }

  lemma WithdrawingNothing(a: Agenda, requested: map<EntryId, Condition>)
    ensures Withdrawing(a, requested, {}) == a
  {
    assert Withdrawing(a, requested, {}).plans == a.plans;
    assert Withdrawing(a, requested, {}).bindings == a.bindings;
  }

  lemma WithdrawingOneMore(a: Agenda, requested: map<EntryId, Condition>, seen: set<PlanId>, p: PlanId)
    requires BindingsOk(a) && p !in seen && Bound(a, p)
    ensures var mid := Withdrawing(a, requested, seen);
      && p in mid.plans && mid.plans[p] == a.plans[p]
      && Withdrawing(a, requested, seen + {p}) ==
        if Kept(a, requested, a.plans[p].entry) then mid
        else mid.(plans := if Open(a.plans[p].status) then mid.plans[p := a.plans[p].(status := CANCELLED)] else mid.plans, bindings := mid.bindings - {a.plans[p].entry})
  {
    var mid, last := Withdrawing(a, requested, seen), Withdrawing(a, requested, seen + {p});
    var e := a.plans[p].entry;
    if Kept(a, requested, e) {
      assert last.plans == mid.plans;
      assert last.bindings == mid.bindings;
    } else {
      assert last.plans == if Open(a.plans[p].status) then mid.plans[p := a.plans[p].(status := CANCELLED)] else mid.plans;
      assert last.bindings == mid.bindings - {e};
    }
  }

  lemma WithdrawingAll(a: Agenda, requested: map<EntryId, Condition>, seen: set<PlanId>)
    requires BindingsOk(a) && seen == set p | p in a.plans && Bound(a, p)
    ensures Withdrawing(a, requested, seen) == Release(a, requested)
  {
    assert Withdrawing(a, requested, seen).plans == Release(a, requested).plans;
    forall e | e in a.bindings ensures a.bindings[e] in seen {}
    assert Withdrawing(a, requested, seen).bindings == Release(a, requested).bindings;
  }

  lemma ReleaseKeepsClock(a: Agenda, requested: map<EntryId, Condition>)
    ensures Release(a, requested).lastWake == a.lastWake && Release(a, requested).plans.Keys == a.plans.Keys
  {
  }

  lemma NamedGrows(signals: seq<Signal>, i: nat, q: PlanId)
    requires i < |signals|
    ensures Named(signals[..i + 1], q) <==> Named(signals[..i], q) || q == signals[i].plan
  {
    assert signals[..i + 1] == signals[..i] + [signals[i]];
    assert signals[i] in signals[..i + 1];
    if Named(signals[..i], q) {
      var s :| s in signals[..i] && s.plan == q;
      assert s in signals[..i + 1];
    }
  }
}
