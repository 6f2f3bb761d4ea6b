/** The reader's cache over fenced pages: what it keeps of each message, and which range of the history it has loaded. */
module ArchiveSession {
  import opened Wrappers
  import opened Pages

  datatype Snapshot = Snapshot(session: nat, revision: nat, messages: seq<Message>, cursor: Option<Cursor>)

  /** What an event says of one message; parts that it does not name stay as they are known. */
  datatype Patch = Patch(id: MessageId, session: nat, revision: nat, deleted: Option<bool>, text: Option<nat>)

  const SNAPSHOT: nat := 200
  const PAGE: nat := 100
  const BATCH: nat := 200

  // ---------------------------------------------------------------- records

  /** Text 0 is no text. */
  function Clean(m: Message): Message { if m.deleted then m.(text := 0) else m }

  function Merged(records: map<MessageId, Message>, session: nat, m: Message): map<MessageId, Message> {
    if m.session != session || (m.id in records && m.revision < records[m.id].revision) then records else records[m.id := Clean(m)]
  }

  function MergeAll(records: map<MessageId, Message>, session: nat, messages: seq<Message>): map<MessageId, Message> {
    if messages == [] then records
    else Merged(MergeAll(records, session, messages[..|messages| - 1]), session, messages[|messages| - 1])
  }

  // ---------------------------------------------------------------- what the server serves

  /** The rows of one session: the n-th message has sequence n and an id of its own. */
  ghost predicate Served(session: nat, name: nat -> MessageId, rows: seq<Message>) {
    forall i :: 0 <= i < |rows| ==> rows[i].sequence == i + 1 && rows[i].id == name(i + 1) && rows[i].session == session
  }

  ghost predicate Injective(name: nat -> MessageId) { forall m, n :: name(m) == name(n) ==> m == n }

  lemma ServedRowsOk(session: nat, name: nat -> MessageId, rows: seq<Message>)
    requires Injective(name) && Served(session, name, rows)
    ensures RowsOk(rows) && High(rows) == |rows|
  {
  }

  lemma {:induction false} OlderIsPrefix(session: nat, name: nat -> MessageId, rows: seq<Message>, c: Cursor, n: nat)
    requires Served(session, name, rows) && n == (if c.position <= c.high then (if c.position == 0 then 0 else c.position - 1) else c.high) && c.position <= c.high + 1
    ensures Where(rows, Older(c)) == if n <= |rows| then rows[..n] else rows
  {
    hide Served;
    if rows != [] {
      var k := |rows| - 1;
      ServedPrefix(session, name, rows);
      OlderIsPrefix(session, name, rows[..k], c, n);
    }
  }

  lemma ServedPrefix(session: nat, name: nat -> MessageId, rows: seq<Message>)
    requires Served(session, name, rows) && rows != []
    ensures Served(session, name, rows[..|rows| - 1]) && rows[|rows| - 1].sequence == |rows|
  {
  }

  function Floor(top: nat, limit: nat): nat { if top > limit then top - limit + 1 else 1 }

  /** A page holds the sequences directly before its position, and the next position is the first of them. */
  lemma PageRange(session: nat, name: nat -> MessageId, rows: seq<Message>, c: Cursor, limit: nat)
    requires Injective(name) && Served(session, name, rows) && 1 <= c.position <= c.high + 1 && c.high <= |rows| && limit > 0
    ensures History(rows, Some(c), limit).Ok?
    ensures var page, top := History(rows, Some(c), limit).page, c.position - 1;
      && |page.items| == top - Floor(top, limit) + 1
      && (forall i :: 0 <= i < |page.items| ==> page.items[i].sequence == Floor(top, limit) + i && page.items[i].id == name(Floor(top, limit) + i) && page.items[i].session == session)
      && page.next == (if Floor(top, limit) > 1 then Some(Cursor(c.high, Floor(top, limit))) else None)
  {
    ServedRowsOk(session, name, rows);
    OlderIsPrefix(session, name, rows, c, c.position - 1);
    assert Where(rows, Older(c)) == rows[..c.position - 1];
  }

  predicate FirstPage(snapshot: Snapshot, rows: seq<Message>) {
    var page := History(rows, None, SNAPSHOT);
    page.Ok? && snapshot.messages == page.page.items && snapshot.cursor == page.page.next
  }

  lemma SnapshotRange(session: nat, name: nat -> MessageId, rows: seq<Message>, snapshot: Snapshot)
    requires Injective(name) && Served(session, name, rows) && FirstPage(snapshot, rows)
    ensures var low := Floor(|rows|, SNAPSHOT);
      && |snapshot.messages| == |rows| - low + 1
      && (forall i :: 0 <= i < |snapshot.messages| ==> snapshot.messages[i].sequence == low + i && snapshot.messages[i].id == name(low + i) && snapshot.messages[i].session == session)
      && snapshot.cursor == (if low > 1 then Some(Cursor(|rows|, low)) else None)
  {
    ServedRowsOk(session, name, rows);
    PageRange(session, name, rows, Cursor(|rows|, |rows| + 1), SNAPSHOT);
  }

  predicate Within(low: nat, s: nat, high: nat) { low <= s <= high }

  function Range(low: nat, high: nat): set<nat> { set s | low <= s <= high && Within(low, s, high) }

  /** The consecutive sequences that a page brings. */
  ghost predicate Run(session: nat, name: nat -> MessageId, items: seq<Message>, low: nat, high: nat) {
    && |items| == high - low + 1 && low >= 1
    && forall i :: 0 <= i < |items| ==> items[i].sequence == low + i && items[i].id == name(low + i) && items[i].session == session
  }

  // ---------------------------------------------------------------- the cache

  ghost predicate Named(records: map<MessageId, Message>, name: nat -> MessageId) {
    forall id :: id in records ==> id == name(records[id].sequence) && records[id].id == id
  }

  ghost function Sequences(records: map<MessageId, Message>, ids: set<MessageId>): set<nat> { set id | id in ids && id in records :: records[id].sequence }

  /** Messages of the session under their own ids. */
  ghost predicate Genuine(session: nat, name: nat -> MessageId, items: seq<Message>) {
    forall i :: 0 <= i < |items| ==> items[i].session == session && items[i].id == name(items[i].sequence)
  }

  lemma {:induction false} Merging(records: map<MessageId, Message>, session: nat, name: nat -> MessageId, items: seq<Message>)
    requires Injective(name) && Named(records, name) && Genuine(session, name, items)
    ensures var after := MergeAll(records, session, items);
      && Named(after, name) && records.Keys <= after.Keys
      && (forall id :: id in records ==> after[id].sequence == records[id].sequence && after[id].revision >= records[id].revision)
      && (forall i :: 0 <= i < |items| ==> items[i].id in after && after[items[i].id].sequence == items[i].sequence && after[items[i].id].revision >= items[i].revision)
    decreases |items|
  {
    hide Merged;
    if items != [] {
      var k := |items| - 1;
      Merging(records, session, name, items[..k]);
      MergingOne(MergeAll(records, session, items[..k]), session, name, items[k]);
    }
  }

  lemma MergingOne(records: map<MessageId, Message>, session: nat, name: nat -> MessageId, m: Message)
    requires Injective(name) && Named(records, name) && m.session == session && m.id == name(m.sequence)
    ensures var after := Merged(records, session, m);
      && Named(after, name) && after.Keys == records.Keys + {m.id} && after[m.id].sequence == m.sequence && after[m.id].revision >= m.revision
      && (forall id :: id in records ==> after[id].sequence == records[id].sequence && after[id].revision >= records[id].revision)
  {
    if m.id in records { assert name(records[m.id].sequence) == name(m.sequence); }
  }

  lemma LoadedRun(records: map<MessageId, Message>, ids: set<MessageId>, session: nat, name: nat -> MessageId, items: seq<Message>, low: nat, high: nat)
    requires Injective(name) && Named(records, name) && Run(session, name, items, low, high) && ids <= records.Keys
    ensures var after := MergeAll(records, session, items);
      var ids' := ids + (set i | 0 <= i < |items| :: items[i].id);
      ids' <= after.Keys && Named(after, name) && Sequences(after, ids') == Sequences(records, ids) + Range(low, high)
  {
    Merging(records, session, name, items);
    var after := MergeAll(records, session, items);
    var ids' := ids + (set i | 0 <= i < |items| :: items[i].id);
    forall s | s in Range(low, high) ensures s in Sequences(after, ids') {
      assert items[s - low].id in ids' && after[items[s - low].id].sequence == s;
    }
    forall s | s in Sequences(records, ids) ensures s in Sequences(after, ids') {
      var id :| id in ids && id in records && records[id].sequence == s;
      assert id in ids' && after[id].sequence == s;
    }
  }

  function Newest(a: nat, b: nat): nat { if a < b then b else a }

  /** A known row with the parts that the patch names. */
  function Overlaid(known: Message, p: Patch): Message {
    known.(session := p.session, revision := p.revision, deleted := p.deleted.GetOr(known.deleted), text := p.text.GetOr(known.text))
  }

  function Patched(records: map<MessageId, Message>, session: nat, p: Patch): map<MessageId, Message> {
    if p.session != session || p.id !in records || p.revision < records[p.id].revision then records else Merged(records, session, Overlaid(records[p.id], p))
  }

  /** A patch never adds a message, never goes back in revision, never moves a message, and leaves no text in a deleted one. */
  lemma PatchIsSafe(records: map<MessageId, Message>, session: nat, p: Patch)
    requires forall id :: id in records ==> records[id].id == id
    ensures var after := Patched(records, session, p);
      && after.Keys == records.Keys && (forall id :: id in records && id != p.id ==> after[id] == records[id])
      && (forall id :: id in records ==> after[id].revision >= records[id].revision && after[id].sequence == records[id].sequence && after[id].id == id)
      && (forall id :: id in records && after[id] != records[id] && after[id].deleted ==> after[id].text == 0)
  {
  }

  // ---------------------------------------------------------------- rows and events together

  /** A row of a page, a snapshot or a lookup, or an event. */
  datatype Delivery = Row(row: Message) | Event(patch: Patch)
  {
    function Id(): MessageId { if Row? then row.id else patch.id }

    function Revision(): nat { if Row? then row.revision else patch.revision }
  }

  function Taken(records: map<MessageId, Message>, session: nat, d: Delivery): map<MessageId, Message> {
    match d
    case Row(m) => Merged(records, session, m)
    case Event(p) => Patched(records, session, p)
  }

  function TakenAll(session: nat, ds: seq<Delivery>): map<MessageId, Message> {
    if ds == [] then map[] else Taken(TakenAll(session, ds[..|ds| - 1]), session, ds[|ds| - 1])
  }

  /** The content of each message at each revision. */
  ghost predicate Contents(content: (MessageId, nat) -> Message) { forall id, r :: content(id, r).id == id && content(id, r).revision == r }

  /** A row shows the content of its revision; an event names all that differs in it from every earlier revision. */
  ghost predicate Honest(content: (MessageId, nat) -> Message, session: nat, d: Delivery) {
    match d
    case Row(m) => m.session == session && m == content(m.id, m.revision)
    case Event(p) => p.session == session && forall r: nat :: r <= p.revision ==> Leads(content, p, r)
  }

  ghost predicate Leads(content: (MessageId, nat) -> Message, p: Patch, r: nat) {
    Clean(Overlaid(Clean(content(p.id, r)), p)) == Clean(content(p.id, p.revision))
  }

  /** The message is known when the delivery arrives. */
  predicate Counts(ds: seq<Delivery>, i: nat) { i < |ds| && (ds[i].Row? || exists j :: 0 <= j < i && ds[j].Row? && ds[j].Id() == ds[i].Id()) }

  ghost predicate AllHonest(content: (MessageId, nat) -> Message, session: nat, ds: seq<Delivery>) {
    Contents(content) && forall i :: 0 <= i < |ds| ==> Honest(content, session, ds[i])
  }

  /** The cached row is the content that one of the counting deliveries showed. */
  predicate Shows(content: (MessageId, nat) -> Message, ds: seq<Delivery>, m: Message, i: nat) {
    Counts(ds, i) && ds[i].Id() == m.id && m == Clean(content(m.id, ds[i].Revision()))
  }

  lemma CountsLonger(ds: seq<Delivery>, i: nat)
    requires ds != [] && i < |ds| - 1
    ensures Counts(ds, i) <==> Counts(ds[..|ds| - 1], i)
  {
  }

  ghost predicate AtLeast(kept: map<MessageId, Message>, ds: seq<Delivery>) {
    forall i :: 0 <= i < |ds| && Counts(ds, i) ==> ds[i].Id() in kept && kept[ds[i].Id()].revision >= ds[i].Revision()
  }

  ghost predicate OnlyShown(content: (MessageId, nat) -> Message, kept: map<MessageId, Message>, ds: seq<Delivery>) {
    forall id :: id in kept ==> kept[id].id == id && exists i :: 0 <= i < |ds| && Shows(content, ds, kept[id], i)
  }

  /** What the cache holds of a message is the content of the highest revision that was delivered of it while it was known, whatever the
      order of pages and events. */
  lemma {:induction false} KeepsTheLatest(content: (MessageId, nat) -> Message, session: nat, ds: seq<Delivery>)
    requires AllHonest(content, session, ds)
    ensures AtLeast(TakenAll(session, ds), ds) && OnlyShown(content, TakenAll(session, ds), ds)
  {
    hide Honest, AtLeast, OnlyShown, Taken;
    if ds == [] {
      assert AtLeast(map[], ds) && OnlyShown(content, map[], ds) by { NothingShown(content); }
    } else {
      var k := |ds| - 1;
      KeepsTheLatest(content, session, ds[..k]);
      TakingOne(content, session, ds[..k], ds[k], TakenAll(session, ds[..k]));
      StaysAtLeast(ds, content, TakenAll(session, ds[..k]), TakenAll(session, ds));
      StaysShown(ds, content, TakenAll(session, ds[..k]), TakenAll(session, ds));
    }
  }

  lemma NothingShown(content: (MessageId, nat) -> Message)
    ensures AtLeast(map[], []) && OnlyShown(content, map[], [])
  {
  }

  /** What one delivery does to the cache. */
  ghost predicate Replaces(content: (MessageId, nat) -> Message, before: map<MessageId, Message>, after: map<MessageId, Message>, d: Delivery) {
    && (forall id :: id in after && !(id in before && after[id] == before[id]) ==> id == d.Id() && after[id] == Clean(content(id, d.Revision())) && (d.Row? || id in before))
    && (forall id :: id in before ==> id in after && after[id].revision >= before[id].revision)
    && (d.Row? || d.Id() in before ==> d.Id() in after && after[d.Id()].revision >= d.Revision())
  }

  lemma StaysAtLeast(ds: seq<Delivery>, content: (MessageId, nat) -> Message, before: map<MessageId, Message>, after: map<MessageId, Message>)
    requires ds != [] && AtLeast(before, ds[..|ds| - 1]) && Replaces(content, before, after, ds[|ds| - 1])
    ensures AtLeast(after, ds)
  {
    var k := |ds| - 1;
    var rest := ds[..k];
    forall i | 0 <= i < |ds| && Counts(ds, i) ensures ds[i].Id() in after && after[ds[i].Id()].revision >= ds[i].Revision() {
      if i < k {
        CountsLonger(ds, i);
        assert rest[i] == ds[i];
      } else if ds[k].Event? {
        var j :| 0 <= j < k && ds[j].Row? && ds[j].Id() == ds[k].Id();
        assert rest[j] == ds[j] && Counts(rest, j);
      }
    }
  }

  lemma StaysShown(ds: seq<Delivery>, content: (MessageId, nat) -> Message, before: map<MessageId, Message>, after: map<MessageId, Message>)
    requires ds != [] && OnlyShown(content, before, ds[..|ds| - 1]) && Replaces(content, before, after, ds[|ds| - 1]) && Contents(content)
    ensures OnlyShown(content, after, ds)
  {
    hide Shows;
    var k := |ds| - 1;
    var rest := ds[..k];
    forall id | id in after ensures after[id].id == id && exists i :: 0 <= i < |ds| && Shows(content, ds, after[id], i) {
      if id in before {
        var i :| 0 <= i < |rest| && Shows(content, rest, before[id], i);
        StillShows(content, ds, before[id], i);
        if after[id] != before[id] { LastShows(content, ds, id, i, before[id]); }
      } else {
        RowShows(content, ds, id);
      }
    }
  }

  lemma StillShows(content: (MessageId, nat) -> Message, ds: seq<Delivery>, m: Message, i: nat)
    requires ds != [] && i < |ds| - 1 && Shows(content, ds[..|ds| - 1], m, i)
    ensures Shows(content, ds, m, i)
  {
    CountsLonger(ds, i);
  }

  lemma RowShows(content: (MessageId, nat) -> Message, ds: seq<Delivery>, id: MessageId)
    requires ds != [] && ds[|ds| - 1].Row? && ds[|ds| - 1].Id() == id && Contents(content)
    ensures Shows(content, ds, Clean(content(id, ds[|ds| - 1].Revision())), |ds| - 1)
  {
  }

  lemma LastShows(content: (MessageId, nat) -> Message, ds: seq<Delivery>, id: MessageId, i: nat, known: Message)
    requires ds != [] && ds[|ds| - 1].Id() == id && i < |ds| - 1 && Shows(content, ds, known, i) && known.id == id && Contents(content)
    ensures Shows(content, ds, Clean(content(id, ds[|ds| - 1].Revision())), |ds| - 1)
  {
    var k := |ds| - 1;
    if ds[k].Event? && ds[i].Event? {
      var j :| 0 <= j < i && ds[j].Row? && ds[j].Id() == ds[i].Id();
      assert ds[j].Id() == ds[k].Id();
    }
  }

  /** One delivery replaces the row of its message by the content it shows, or leaves everything. */
  lemma TakingOne(content: (MessageId, nat) -> Message, session: nat, rest: seq<Delivery>, d: Delivery, before: map<MessageId, Message>)
    requires Contents(content) && Honest(content, session, d)
    requires OnlyShown(content, before, rest)
    ensures Replaces(content, before, Taken(before, session, d), d)
  {
    if d.Event? && d.Id() in before {
      var known := before[d.Id()];
      var i :| 0 <= i < |rest| && Shows(content, rest, known, i);
      if d.patch.revision >= known.revision { assert Leads(content, d.patch, rest[i].Revision()); }
    }
  }

  /** Two arrivals of the same pages and events in which each event finds its message known end in the same cache. */
  lemma OrderOfDeliveriesIsIrrelevant(content: (MessageId, nat) -> Message, session: nat, left: seq<Delivery>, right: seq<Delivery>)
    requires AllHonest(content, session, left) && AllHonest(content, session, right) && forall d :: d in left <==> d in right
    requires (forall i :: 0 <= i < |left| ==> Counts(left, i)) && forall i :: 0 <= i < |right| ==> Counts(right, i)
    ensures TakenAll(session, left) == TakenAll(session, right)
  {
    hide TakenAll, AllHonest;
    var l, r := TakenAll(session, left), TakenAll(session, right);
    KeepsTheLatest(content, session, left);
    KeepsTheLatest(content, session, right);
    forall id | id in l ensures id in r && r[id].revision >= l[id].revision { OutdoneBy(content, session, left, right, id); }
    forall id | id in r ensures id in l && l[id].revision >= r[id].revision { OutdoneBy(content, session, right, left, id); }
    forall id | id in l ensures l[id] == r[id] {
      var i :| 0 <= i < |left| && Shows(content, left, l[id], i);
      var j :| 0 <= j < |right| && Shows(content, right, r[id], j);
      RevisionShown(content, session, left, l[id], i);
      RevisionShown(content, session, right, r[id], j);
    }
  }

  lemma RevisionShown(content: (MessageId, nat) -> Message, session: nat, ds: seq<Delivery>, m: Message, i: nat)
    requires AllHonest(content, session, ds) && i < |ds| && Shows(content, ds, m, i)
    ensures m.revision == ds[i].Revision()
  {
  }

  lemma OutdoneBy(content: (MessageId, nat) -> Message, session: nat, left: seq<Delivery>, right: seq<Delivery>, id: MessageId)
    requires AllHonest(content, session, left) && AllHonest(content, session, right) && (forall d :: d in left ==> d in right)
    requires (forall i :: 0 <= i < |right| ==> Counts(right, i)) && id in TakenAll(session, left)
    ensures id in TakenAll(session, right) && TakenAll(session, right)[id].revision >= TakenAll(session, left)[id].revision
  {
    hide TakenAll, AllHonest;
    KeepsTheLatest(content, session, left);
    KeepsTheLatest(content, session, right);
    var m := TakenAll(session, left)[id];
    var i :| 0 <= i < |left| && Shows(content, left, m, i);
    RevisionShown(content, session, left, m, i);
    assert left[i] in right;
    var j :| 0 <= j < |right| && right[j] == left[i];
    assert Counts(right, j);
  }

  predicate Latest(ds: seq<Delivery>, i: nat) { i < |ds| && forall j :: 0 <= j < |ds| && ds[j].Id() == ds[i].Id() ==> ds[j].Revision() <= ds[i].Revision() }

  /** The cache holds the latest content that was delivered of a known message if and only if a delivery of that content found it known. */
  lemma HoldsTheLatestExactly(content: (MessageId, nat) -> Message, session: nat, ds: seq<Delivery>, latest: nat)
    requires AllHonest(content, session, ds) && Latest(ds, latest) && ds[latest].Id() in TakenAll(session, ds)
    ensures var id, r := ds[latest].Id(), ds[latest].Revision();
      TakenAll(session, ds)[id] == Clean(content(id, r)) <==> exists i :: 0 <= i < |ds| && Counts(ds, i) && ds[i].Id() == id && ds[i].Revision() == r
  {
    hide TakenAll, Counts, Honest;
    KeepsTheLatest(content, session, ds);
    var id, r := ds[latest].Id(), ds[latest].Revision();
    var m := TakenAll(session, ds)[id];
    var j :| 0 <= j < |ds| && Shows(content, ds, m, j);
    RevisionShown(content, session, ds, m, j);
    assert Clean(content(id, r)).revision == r;
  }

  /** Once a deletion found its message known, the text never comes back, in whatever order older pages and events arrive. */
  lemma DeletionIsFinal(content: (MessageId, nat) -> Message, session: nat, ds: seq<Delivery>, gone: nat)
    requires AllHonest(content, session, ds) && gone < |ds| && Counts(ds, gone)
    requires forall r :: r >= ds[gone].Revision() ==> content(ds[gone].Id(), r).deleted
    ensures var id := ds[gone].Id(); id in TakenAll(session, ds) && TakenAll(session, ds)[id].deleted && TakenAll(session, ds)[id].text == 0
  {
    hide TakenAll, Counts, Honest;
    KeepsTheLatest(content, session, ds);
    var m := TakenAll(session, ds)[ds[gone].Id()];
    var j :| 0 <= j < |ds| && Shows(content, ds, m, j);
    RevisionShown(content, session, ds, m, j);
  }

  /** A deletion that arrives before its message is known is dropped, and an older page then shows the text. */
  lemma EarlyDeletionIsDropped()
    ensures var before := Message(1, 0, 1, 1, 3, false, 5);
      var ds := [Event(Patch(1, 0, 9, Some(true), Some(0))), Row(before)];
      !Counts(ds, 0) && Latest(ds, 0) && TakenAll(0, ds) == map[1 := before]
  {
    var before := Message(1, 0, 1, 1, 3, false, 5);
    var ds := [Event(Patch(1, 0, 9, Some(true), Some(0))), Row(before)];
    assert ds[..1] == [Event(Patch(1, 0, 9, Some(true), Some(0)))] && ds[..1][..0] == [];
    assert TakenAll(0, ds[..1]) == map[];
  }

  class Archive {
    const session: nat
    ghost const name: nat -> MessageId
    var records: map<MessageId, Message>
    var historyIds: set<MessageId>
    var initialized: bool
    var observedRevision: nat
    var revision: nat
    var historyCursor: Option<Cursor>
    var recoveryHigh: Option<nat>
    var repairPending: bool
    ghost var low: nat
    ghost var top: nat

    ghost function Loaded(): set<nat>
      reads this
    {
      Sequences(records, historyIds)
    }

    /** The range low..top is loaded; while a gap is being recovered, only the part below it and pieces above it are. The cursor
        of the older history stands at the lower end. top is the length of the last snapshot that was accepted. */
    ghost predicate Valid()
      reads this
    {
      && Injective(name) && Named(records, name) && historyIds <= records.Keys
      && (!initialized ==> historyIds == {} && recoveryHigh.None? && historyCursor.None? && top == 0)
      && (initialized ==> 1 <= low <= Floor(top, SNAPSHOT))
      && (initialized && recoveryHigh.None? ==> Loaded() == Range(low, top))
      && (recoveryHigh.Some? ==> low <= recoveryHigh.value <= top && low <= Floor(recoveryHigh.value, SNAPSHOT) && Range(low, recoveryHigh.value) <= Loaded() <= Range(low, top))
      && (historyCursor.Some? ==> initialized && 1 < low == historyCursor.value.position && low <= historyCursor.value.high <= top)
    }

    constructor (session: nat, ghost name: nat -> MessageId)
      requires Injective(name)
      ensures Valid() && this.session == session && this.name == name && !initialized && records == map[]
    {
      this.session, this.name := session, name;
      records, historyIds, initialized, observedRevision, revision := map[], {}, false, 0, 0;
      historyCursor, recoveryHigh, repairPending, low, top := None, None, false, 1, 0;
    }

    method Merge(messages: seq<Message>, history: bool)
      modifies this`records, this`historyIds
      ensures records == MergeAll(old(records), session, messages)
      ensures historyIds == if history then old(historyIds) + (set i | 0 <= i < |messages| && messages[i].session == session :: messages[i].id) else old(historyIds)
    {
      var i := 0;
      assert messages[..0] == [];
      while i < |messages|
        invariant i <= |messages| && records == MergeAll(old(records), session, messages[..i])
        invariant historyIds == if history then old(historyIds) + (set j | 0 <= j < i && messages[j].session == session :: messages[j].id) else old(historyIds)
      {
        var m := messages[i];
        assert messages[..i + 1][..i] == messages[..i];
        if m.session == session {
          if m.id !in records || m.revision >= records[m.id].revision { records := records[m.id := Clean(m)]; }
          if history { historyIds := historyIds + {m.id}; }
        }
        i := i + 1;
      }
      assert messages[..i] == messages;
    }

    /** A page of consecutive messages extends what is loaded by exactly its range. */
    method MergeRun(items: seq<Message>, ghost from: nat, ghost to: nat)
      requires Injective(name) && Named(records, name) && historyIds <= records.Keys && Run(session, name, items, from, to)
      modifies this`records, this`historyIds
      ensures Named(records, name) && historyIds <= records.Keys && Loaded() == old(Loaded()) + Range(from, to)
      ensures records == MergeAll(old(records), session, items)
    {
      LoadedRun(records, historyIds, session, name, items, from, to);
      assert (set i | 0 <= i < |items| && items[i].session == session :: items[i].id) == set i | 0 <= i < |items| :: items[i].id;
      Merge(items, true);
    }

    /** The highest loaded sequence, 0 if nothing is loaded. */
    method HighestLoaded() returns (high: nat)
      requires historyIds <= records.Keys
      ensures high == 0 ==> forall s :: s in Loaded() ==> s == 0
      ensures high > 0 ==> high in Loaded()
      ensures forall s :: s in Loaded() ==> s <= high
    {
      high := 0;
      var todo := historyIds;
      while todo != {}
        invariant todo <= historyIds <= records.Keys
        invariant forall id :: id in historyIds - todo ==> records[id].sequence <= high
        invariant high > 0 ==> exists id :: id in historyIds && records[id].sequence == high
        decreases todo
      {
        var id :| id in todo;
        todo := todo - {id};
        if records[id].sequence > high { high := records[id].sequence; }
      }
    }

    /** Reads and keeps the page before the cursor. */
    method Fetch(cursor: Cursor, rows: seq<Message>) returns (page: Page)
      requires Injective(name) && Named(records, name) && historyIds <= records.Keys
      requires 1 < cursor.position <= cursor.high + 1 && cursor.high <= |rows| && Served(session, name, rows)
      modifies this`records, this`historyIds
      ensures Named(records, name) && historyIds <= records.Keys
      ensures var b := Floor(cursor.position - 1, PAGE);
        && 1 <= b < cursor.position && page.items != [] && page.items[0].sequence == b && page.next == (if b > 1 then Some(Cursor(cursor.high, b)) else None)
        && Loaded() == old(Loaded()) + Range(b, cursor.position - 1) && records == MergeAll(old(records), session, page.items)
    {
      PageRange(session, name, rows, cursor, PAGE);
      page := History(rows, Some(cursor), PAGE).page;
      MergeRun(page.items, Floor(cursor.position - 1, PAGE), cursor.position - 1);
    }

    /** The next page of older history. */
    method LoadOlder(rows: seq<Message>, failed: bool) returns (done: bool)
      requires Valid() && Served(session, name, rows) && (historyCursor.Some? ==> historyCursor.value.high <= |rows|)
      modifies this
      ensures Valid() && top == old(top) && recoveryHigh == old(recoveryHigh) && low <= old(low)
      ensures done == (old(historyCursor).Some? && !failed) && (done ==> low < old(low)) && (!done ==> low == old(low))
      ensures old(recoveryHigh).None? && old(initialized) ==> Loaded() == Range(low, top)
    {
      hide Sequences, Injective, Named, Served, MergeAll;
      if historyCursor.None? || failed { return false; }
      ghost var before := Loaded();
      var page := Fetch(historyCursor.value, rows);
      historyCursor := page.next;
      low := page.items[0].sequence;
      Lower(low, old(low), top, before, Loaded(), recoveryHigh.GetOr(top));
      done := true;
    }

    /** The mark below which everything is loaded: that of an unfinished recovery, or the newest loaded message. */
    method PreviousHigh() returns (previousHigh: nat)
      requires Valid()
      ensures previousHigh == if recoveryHigh.Some? then recoveryHigh.value else if Loaded() == {} then 0 else top
      ensures Loaded() != {} ==> initialized && 1 <= low <= previousHigh <= top && low <= Floor(previousHigh, SNAPSHOT) && Range(low, previousHigh) <= Loaded() <= Range(low, top)
    {
      hide Sequences, Injective, Named, Served, MergeAll;
      var highest := HighestLoaded();
      previousHigh := recoveryHigh.GetOr(highest);
      NothingHidden();
      if recoveryHigh.None? && initialized { HighestOf(low, top, Loaded(), highest); }
    }

    lemma NothingHidden()
      requires Valid()
      ensures !initialized ==> Loaded() == {}
      ensures recoveryHigh.Some? ==> Loaded() != {}
    {
      if recoveryHigh.Some? { assert Within(low, low, recoveryHigh.value) && low in Range(low, recoveryHigh.value); }
    }

    /** Merges the newest page and moves the fence to its end. */
    method Accept(snapshot: Snapshot, ghost rows: seq<Message>, previousHigh: nat)
      requires Valid() && snapshot.session == session && Served(session, name, rows) && FirstPage(snapshot, rows) && |rows| >= top
      requires Loaded() != {} ==> 1 <= low <= previousHigh <= top && low <= Floor(previousHigh, SNAPSHOT) && Range(low, previousHigh) <= Loaded() <= Range(low, top)
      modifies this`records, this`historyIds, this`low, this`top
      ensures Injective(name) && Named(records, name) && historyIds <= records.Keys && top == |rows|
      ensures low == if old(Loaded()) == {} then Floor(|rows|, SNAPSHOT) else old(low)
      ensures old(Loaded()) == {} ==> Loaded() == Range(low, top)
      ensures old(Loaded()) != {} ==> var from := Floor(top, SNAPSHOT);
        low <= from && Range(low, previousHigh) + Range(from, top) <= Loaded() <= Range(low, top) && (from <= previousHigh + 1 ==> Loaded() == Range(low, top))
    {
      hide Sequences, Injective, Named, Served, MergeAll, FirstPage;
      SnapshotRange(session, name, rows, snapshot);
      ghost var before, from, reached := Loaded(), Floor(|rows|, SNAPSHOT), top;
      if before == {} { low := from; }
      top := |rows|;
      if snapshot.messages != [] { MergeRun(snapshot.messages, from, |rows|); }
      if before == {} { StartsAt(low, top, Loaded(), previousHigh); } else { Arrives(low, previousHigh, reached, from, top, before, Loaded()); }
    }

    /** A snapshot arrives. rows is the server's table when it was taken, states what the reads of older pages see, known what the repair reads; a read beyond them fails. */
    method Synchronize(snapshot: Snapshot, ghost rows: seq<Message>, states: seq<seq<Message>>, known: seq<seq<Message>>) returns (accepted: bool, ok: bool)
      requires Valid() && Served(session, name, rows) && FirstPage(snapshot, rows) && (snapshot.revision >= revision ==> |rows| >= top)
      requires forall i :: 0 <= i < |states| ==> Served(session, name, states[i]) && |states[i]| >= |rows|
      requires forall i :: 0 <= i < |known| ==> Served(session, name, known[i]) && Evolves(rows, known[i])
      modifies this
      ensures Valid() && accepted == (snapshot.session == session && snapshot.revision >= old(revision))
      ensures accepted ==> initialized && revision == snapshot.revision && top == |rows|
      ensures accepted && ok ==> Loaded() == Range(low, top)
      ensures accepted && ok && (old(repairPending) || snapshot.revision > Newest(old(observedRevision), old(revision))) && old(initialized) ==>
        !repairPending && forall id :: id in records ==> UpToDate(rows, records[id])
      ensures accepted && old(Loaded()) != {} ==> low == old(low) && historyCursor == old(historyCursor)
      ensures accepted && old(initialized) && old(Loaded()) == {} ==> low == Floor(|rows|, SNAPSHOT) && historyCursor.None?
    {
      hide Sequences, Injective, Named, Served, MergeAll, FirstPage, Range, UpToDate, Evolves;
      if snapshot.session != session || snapshot.revision < revision { return false, false; }
      accepted, ok := true, true;
      var previousHigh, repair := Absorb(snapshot, rows);
      if previousHigh > 0 && snapshot.messages != [] && snapshot.messages[0].sequence > previousHigh + 1 {
        ok := CloseGap(previousHigh, snapshot.cursor, states);
      }
      if ok && repair { ok := RevalidateKnown(known, rows); }
    }

    /** The newest page and the new revision; what it leaves to do is a gap above the old mark, or a repair. */
    method Absorb(snapshot: Snapshot, ghost rows: seq<Message>) returns (previousHigh: nat, repair: bool)
      requires Valid() && Served(session, name, rows) && FirstPage(snapshot, rows) && snapshot.session == session && snapshot.revision >= revision && |rows| >= top
      modifies this
      ensures initialized && revision == snapshot.revision && top == |rows| && Injective(name) && Named(records, name) && historyIds <= records.Keys
      ensures repair == (old(initialized) && (old(repairPending) || snapshot.revision > Newest(old(observedRevision), old(revision)))) && (repair ==> repairPending)
      ensures historyCursor.Some? ==> 1 < low == historyCursor.value.position && low <= historyCursor.value.high <= top
      ensures old(Loaded()) != {} ==> low == old(low) && historyCursor == old(historyCursor)
      ensures old(initialized) && old(Loaded()) == {} ==> low == Floor(|rows|, SNAPSHOT) && historyCursor.None?
      ensures var from := Floor(top, SNAPSHOT);
        var gap := previousHigh > 0 && snapshot.messages != [] && snapshot.messages[0].sequence > previousHigh + 1;
        && snapshot.cursor == (if from > 1 then Some(Cursor(top, from)) else None)
        && (gap ==> 1 <= from <= top && 1 <= low <= previousHigh < from - 1 && low <= Floor(previousHigh, SNAPSHOT)
                    && Range(low, previousHigh) + Range(from, top) <= Loaded() <= Range(low, top))
        && (!gap ==> Valid() && Loaded() == Range(low, top))
    {
      hide Sequences, Injective, Named, Served, MergeAll, FirstPage, Range;
      NothingHidden();
      previousHigh := PreviousHigh();
      EmptyHasNoCursor();
      repair := initialized && (repairPending || snapshot.revision > Newest(observedRevision, revision));
      SnapshotRange(session, name, rows, snapshot);
      Accept(snapshot, rows, previousHigh);
      if repair { repairPending := true; }
      if !initialized { historyCursor, initialized := snapshot.cursor, true; }
      revision := snapshot.revision;
    }

    /** Until every page of the gap has arrived, the old mark is kept. */
    method CloseGap(previousHigh: nat, start: Option<Cursor>, states: seq<seq<Message>>) returns (done: bool)
      requires Injective(name) && Named(records, name) && historyIds <= records.Keys && initialized
      requires historyCursor.Some? ==> 1 < low == historyCursor.value.position && low <= historyCursor.value.high <= top
      requires var from := Floor(top, SNAPSHOT);
        && start == (if from > 1 then Some(Cursor(top, from)) else None) && 1 <= from <= top
        && 1 <= low <= previousHigh < from - 1 && low <= Floor(previousHigh, SNAPSHOT) && Range(low, previousHigh) + Range(from, top) <= Loaded() <= Range(low, top)
      requires forall i :: 0 <= i < |states| ==> Served(session, name, states[i]) && |states[i]| >= top
      modifies this`records, this`historyIds, this`recoveryHigh
      ensures Valid() && (done ==> Loaded() == Range(low, top)) && recoveryHigh == if done then None else Some(previousHigh)
    {
      hide Sequences, Injective, Named, Served, Range;
      recoveryHigh := Some(previousHigh);
      done := Bridge(previousHigh, start, states, Floor(top, SNAPSHOT));
      if done { recoveryHigh := None; }
    }

    lemma EmptyHasNoCursor()
      requires Valid()
      ensures Loaded() == {} ==> historyCursor.None?
      ensures initialized && recoveryHigh.None? && Loaded() == {} ==> top == 0
    {
      if historyCursor.Some? && recoveryHigh.None? { assert Within(low, low, top) && low in Range(low, top); }
      if initialized && recoveryHigh.None? && top > 0 { assert Within(low, top, top) && top in Range(low, top); }
      if recoveryHigh.Some? { assert Within(low, low, recoveryHigh.value) && low in Range(low, recoveryHigh.value); }
    }

    /** An event changes only a message that is already known, and only towards a later revision; a gap in the revisions asks for repair. */
    method Deliver(eventRevision: nat, patch: Option<Patch>)
      requires Valid()
      modifies this`records, this`observedRevision, this`repairPending, this`historyIds
      ensures Valid() && Loaded() == old(Loaded()) && historyIds == old(historyIds)
      ensures records == if patch.Some? then Patched(old(records), session, patch.value) else old(records)
      ensures repairPending == (old(repairPending) || (old(initialized) && patch.Some? && patch.value.session == session && eventRevision > Newest(old(observedRevision), revision) + 1))
    {
      hide Sequences, Injective;
      if patch.None? || patch.value.session != session { return; }
      var p := patch.value;
      if initialized && eventRevision > Newest(observedRevision, revision) + 1 { repairPending := true; }
      observedRevision := Newest(observedRevision, eventRevision);
      PatchIsSafe(records, session, p);
      if p.id in records && p.revision >= records[p.id].revision {
        ghost var was := records;
        var changed := Overlaid(records[p.id], p);
        Merge([changed], false);
        assert [changed][..0] == [] && records == Merged(was, session, changed);
        SameSequences(was, records, historyIds);
      }
    }

    method KnownIds() returns (ids: seq<MessageId>)
      ensures forall id :: id in records <==> id in ids
    {
      ids := [];
      var todo := records.Keys;
      while todo != {}
        invariant todo <= records.Keys && forall id :: id in records <==> id in ids || id in todo
        decreases todo
      {
        var id :| id in todo;
        todo := todo - {id};
        ids := ids + [id];
      }
    }

    /** Reads every known message again, in batches. If all reads succeed, no known message is older than the server had it before. */
    method RevalidateKnown(states: seq<seq<Message>>, ghost base: seq<Message>) returns (ok: bool)
      requires Injective(name) && Named(records, name) && historyIds <= records.Keys
      requires Served(session, name, base) && forall i :: 0 <= i < |states| ==> Served(session, name, states[i]) && Evolves(base, states[i])
      modifies this`records, this`historyIds, this`repairPending
      ensures Named(records, name) && records.Keys == old(records).Keys && historyIds == old(historyIds) && Loaded() == old(Loaded())
      ensures forall id :: id in records ==> records[id].revision >= old(records)[id].revision
      ensures ok ==> !repairPending && forall id :: id in records ==> UpToDate(base, records[id])
    {
      hide Sequences, Injective, Named, MergeAll, UpToDate;
      repairPending := true;
      var ids := KnownIds();
      ghost var was := records;
      var i, batch := 0, 0;
      while i < |ids|
        invariant i <= |ids| && batch <= |states| && Injective(name) && Named(records, name) && records.Keys == was.Keys && historyIds == old(historyIds)
        invariant forall id :: id in records ==> records[id].revision >= was[id].revision && records[id].sequence == was[id].sequence
        invariant forall k :: 0 <= k < i ==> ids[k] in records && UpToDate(base, records[ids[k]])
      {
        if batch == |states| { SameSequences(was, records, historyIds); return false; }
        var end := if i + BATCH < |ids| then i + BATCH else |ids|;
        ghost var before := records;
        var rows := states[batch];
        var items := Where(rows, (m: Message) => m.id in ids[i..end]);
        Found(session, name, rows, ids[i..end]);
        Merging(records, session, name, items);
        KeepsKeys(records, session, items);
        Merge(items, false);
        forall k | 0 <= k < end ensures ids[k] in records && UpToDate(base, records[ids[k]]) {
          if k < i { StaysUpToDate(base, before[ids[k]], records[ids[k]]); }
          else {
            assert ids[k] == ids[i..end][k - i];
            ReadAgain(session, name, rows, base, before, ids[i..end], ids[k]);
          }
        }
        batch := batch + 1;
        i := end;
      }
      SameSequences(was, records, historyIds);
      repairPending := false;
      ok := true;
    }

    /** Reads the interval between the older high-water mark and the newest page; each page comes from a later state of the server.
        False if a read failed; what was recovered stays. */
    method Bridge(previousHigh: nat, start: Option<Cursor>, states: seq<seq<Message>>, ghost from: nat) returns (done: bool)
      requires Injective(name) && Named(records, name) && historyIds <= records.Keys
      requires start == (if from > 1 then Some(Cursor(top, from)) else None) && 1 <= from <= top
      requires 1 <= low <= previousHigh < from - 1 && low <= Floor(previousHigh, SNAPSHOT) && Range(low, previousHigh) + Range(from, top) <= Loaded() <= Range(low, top)
      requires forall i :: 0 <= i < |states| ==> Served(session, name, states[i]) && |states[i]| >= top
      modifies this`records, this`historyIds
      ensures Named(records, name) && historyIds <= records.Keys
      ensures Range(low, previousHigh) <= Loaded() <= Range(low, top)
      ensures done ==> Loaded() == Range(low, top)
    {
      hide Range, Sequences, Injective, Named, Served, MergeAll;
      var cursor := start;
      var i := 0;
      ghost var a := from;
      while cursor.Some?
        invariant i <= |states| && Named(records, name) && historyIds <= records.Keys
        invariant cursor == (if a > 1 then Some(Cursor(top, a)) else None) && previousHigh + 1 < a <= top
        invariant Range(low, previousHigh) + Range(a, top) <= Loaded() <= Range(low, top)
        decreases if cursor.Some? then a else 0
      {
        if i == |states| { return false; }
        ghost var before := Loaded();
        var page := Fetch(cursor.value, states[i]);
        i := i + 1;
        ghost var b := page.items[0].sequence;
        Extends(low, previousHigh, b, a, top, before, Loaded());
        if page.items == [] || page.items[0].sequence <= previousHigh + 1 {
          CoversGap(low, previousHigh, b, top, Loaded());
          return true;
        }
        if page.next == cursor { return false; }
        cursor := page.next;
        a := b;
      }
      done := true;
    }
  }

  lemma HighestOf(low: nat, top: nat, loaded: set<nat>, highest: nat)
    requires low >= 1 && loaded == Range(low, top) && (highest > 0 ==> highest in loaded) && forall s :: s in loaded ==> s <= highest
    ensures if loaded == {} then highest == 0 && top < low else highest == top && low <= top
  {
    if low <= top { assert Within(low, top, top) && top in loaded; }
  }

  lemma StartsAt(low: nat, top: nat, after: set<nat>, previousHigh: nat)
    requires low == Floor(top, SNAPSHOT) && after == if top > 0 then Range(low, top) else {}
    ensures after == Range(low, top)
  {
  }

  /** The newest page joins what is loaded, or leaves a gap above the older high-water mark. */
  lemma Arrives(low: nat, previousHigh: nat, reached: nat, from: nat, top: nat, before: set<nat>, after: set<nat>)
    requires 1 <= low <= previousHigh <= reached <= top && low <= Floor(previousHigh, SNAPSHOT) && from == Floor(top, SNAPSHOT)
    requires Range(low, previousHigh) <= before <= Range(low, reached) && after == before + Range(from, top)
    ensures low <= from && Range(low, previousHigh) + Range(from, top) <= after <= Range(low, top)
    ensures from <= previousHigh + 1 ==> after == Range(low, top)
  {
    forall s | s in after ensures s in Range(low, top) { assert Within(low, s, top); }
    if from <= previousHigh + 1 { CoversGap(low, previousHigh, from, top, after); }
  }

  /** An older page moves the lower end of everything that is loaded. */
  lemma Lower(b: nat, low: nat, top: nat, before: set<nat>, after: set<nat>, r: nat)
    requires 1 <= b < low <= r + 1 && r <= top && Range(low, r) <= before <= Range(low, top) && after == before + Range(b, low - 1)
    ensures Range(b, r) <= after <= Range(b, top)
    ensures before == Range(low, top) ==> after == Range(b, top)
  {
    forall s | s in Range(b, r) ensures s in after { assert Within(b, s, low - 1) || Within(low, s, r); if s >= low { assert s in Range(low, r); } }
    forall s | s in after ensures s in Range(b, top) { assert Within(b, s, top); }
    if before == Range(low, top) {
      forall s | s in Range(b, top) ensures s in after { assert Within(b, s, low - 1) || Within(low, s, top); if s >= low { assert s in Range(low, top); } }
    }
  }

  /** A page directly below what is loaded moves its lower end. */
  lemma Extends(low: nat, previousHigh: nat, b: nat, a: nat, top: nat, before: set<nat>, after: set<nat>)
    requires low <= b < a <= top
    requires Range(low, previousHigh) + Range(a, top) <= before <= Range(low, top) && after == before + Range(b, a - 1)
    ensures Range(low, previousHigh) + Range(b, top) <= after <= Range(low, top)
  {
    forall s | s in Range(b, top) ensures s in after { if s < a { assert Within(b, s, a - 1); } else { assert Within(a, s, top); } }
    forall s | s in after ensures s in Range(low, top) { if s !in before { assert Within(low, s, top); } }
  }

  lemma CoversGap(low: nat, previousHigh: nat, a: nat, top: nat, loaded: set<nat>)
    requires a <= previousHigh + 1 && Range(low, previousHigh) + Range(a, top) <= loaded <= Range(low, top)
    ensures loaded == Range(low, top)
  {
    forall s | s in Range(low, top) ensures s in loaded {
      assert Within(low, s, previousHigh) || Within(a, s, top);
      if s <= previousHigh { assert s in Range(low, previousHigh); } else { assert s in Range(a, top); }
    }
  }

  /** The record is at least as new as the row of the same sequence. */
  ghost predicate UpToDate(base: seq<Message>, m: Message) { 1 <= m.sequence <= |base| ==> m.revision >= base[m.sequence - 1].revision }

  lemma StaysUpToDate(base: seq<Message>, m: Message, m': Message)
    requires UpToDate(base, m) && m'.sequence == m.sequence && m'.revision >= m.revision
    ensures UpToDate(base, m')
  {
  }

  lemma SameSequences(records: map<MessageId, Message>, records': map<MessageId, Message>, ids: set<MessageId>)
    requires records.Keys == records'.Keys && forall id :: id in records ==> records'[id].sequence == records[id].sequence
    ensures Sequences(records', ids) == Sequences(records, ids)
  {
  }

  lemma Found(session: nat, name: nat -> MessageId, rows: seq<Message>, ids: seq<MessageId>)
    requires Injective(name) && Served(session, name, rows)
    ensures var items := Where(rows, (m: Message) => m.id in ids);
      Genuine(session, name, items) && (forall m :: m in items <==> m in rows && m.id in ids)
  {
    ServedRowsOk(session, name, rows);
    WhereIs(rows, (m: Message) => m.id in ids);
    var items := Where(rows, (m: Message) => m.id in ids);
    forall i | 0 <= i < |items| ensures items[i].session == session && items[i].id == name(items[i].sequence) { assert items[i] in items && items[i] in rows; }
  }

  lemma {:induction false} KeepsKeys(records: map<MessageId, Message>, session: nat, items: seq<Message>)
    requires forall m :: m in items ==> m.id in records
    ensures MergeAll(records, session, items).Keys == records.Keys
  {
    if items != [] {
      assert items[|items| - 1] in items;
      KeepsKeys(records, session, items[..|items| - 1]);
    }
  }

  lemma ReadAgain(session: nat, name: nat -> MessageId, rows: seq<Message>, base: seq<Message>, before: map<MessageId, Message>, ids: seq<MessageId>, id: MessageId)
    requires Injective(name) && Served(session, name, base) && Served(session, name, rows) && Evolves(base, rows) && Named(before, name) && id in before && id in ids
    ensures var after := MergeAll(before, session, Where(rows, (m: Message) => m.id in ids)); id in after && UpToDate(base, after[id])
  {
    var items := Where(rows, (m: Message) => m.id in ids);
    Found(session, name, rows, ids);
    Merging(before, session, name, items);
    var s := before[id].sequence;
    if 1 <= s <= |base| {
      var row := rows[s - 1];
      assert Same(base[s - 1], row) && row.id == id && row in items;
      var i :| 0 <= i < |items| && items[i] == row;
    }
  }
}
