/** Drafts and their outbox: rows under a version check in a store that several tabs share, and submissions to a server over a
    connection that may lose requests and responses. */
module Drafts {
  import opened Wrappers

  type Key = nat
  type OutboxKey = nat
  type TabId = nat
  type MessageId = nat
  type Person = nat

  /** Text 0 is the empty text. */
  datatype Draft = Draft(text: nat, addressedTo: Option<Person>)

  datatype Payload = Payload(text: nat, replyTo: Option<MessageId>, addressedTo: seq<Person>)

  datatype Delivery = SENDING | UNKNOWN | CONFIRMED | REJECTED

  datatype Outbox = Outbox(key: OutboxKey, payload: Payload, editVersion: nat, state: Delivery, message: Option<MessageId>)

  datatype Record = Record(version: nat, editVersion: nat, draft: Draft, outbox: Option<Outbox>)

  datatype Store = Store(generation: nat, records: map<Key, Record>)

  datatype Code =
    | DRAFT_STORAGE_UNAVAILABLE | DRAFT_SCOPE_REVOKED | DRAFT_CONFLICT | DRAFT_RESULT_UNKNOWN | DRAFT_OUTBOX_CHANGED | DRAFT_NO_RECEIPT
    | DRAFT_SUBMISSION_REJECTED | EMPTY_DRAFT | NOTHING_TO_SEND | IN_PROGRESS

  /** The latest draft typed for a row, with the number of the keystroke. */
  datatype Typed = Typed(draft: Draft, sequence: nat)

  /** A write that waits for the ones before it. */
  datatype Queued = Queued(key: Key, typed: Typed)

  /** One page: its cached rows, the drafts that are typed but not stored yet, the writes that wait, the rows that are being sent, and what
      went wrong. */
  datatype Tab = Tab(ready: bool, generation: nat, records: map<Key, Record>, local: map<Key, Typed>, queue: seq<Queued>, sequence: nat,
                     active: set<Key>, errors: map<Key, Code>)

  const NoRecord: Record := Record(0, 0, Draft(0, None), None)

  function RecordOf(records: map<Key, Record>, k: Key): Record { if k in records then records[k] else NoRecord }

  /** What an operation makes of the stored row. */
  datatype Change = Changed(row: Record) | Refused(code: Code)

  // ---------------------------------------------------------------- the edits of a row

  function Edited(row: Record, draft: Draft): Change { Changed(row.(draft := draft, editVersion := row.editVersion + 1)) }

  function PayloadOf(row: Record, replyTo: Option<MessageId>): Payload {
    Payload(row.draft.text, replyTo, if row.draft.addressedTo.Some? then [row.draft.addressedTo.value] else [])
  }

  function Submitted(row: Record, replyTo: Option<MessageId>, key: OutboxKey): Change {
    Changed(row.(outbox := Some(Outbox(key, PayloadOf(row, replyTo), row.editVersion, SENDING, None))))
  }

  /** The draft is still exactly what was submitted. */
  predicate Untouched(row: Record, o: Outbox) {
    && row.editVersion == o.editVersion && row.draft.text == o.payload.text
    && row.draft.addressedTo == (if o.payload.addressedTo == [] then None else Some(o.payload.addressedTo[0]))
  }

  function Acknowledged(row: Record, key: OutboxKey, message: MessageId): Change {
    if row.outbox.None? || row.outbox.value.key != key then Refused(DRAFT_OUTBOX_CHANGED)
    else
      var o := row.outbox.value;
      Changed(row.(draft := if Untouched(row, o) then row.draft.(text := 0) else row.draft, outbox := Some(o.(state := CONFIRMED, message := Some(message)))))
  }

  function Undelivered(row: Record, key: OutboxKey, rejected: bool): Change {
    Changed(if row.outbox.Some? && row.outbox.value.key == key
            then row.(outbox := Some(row.outbox.value.(state := if rejected then REJECTED else UNKNOWN))) else row)
  }

  function Resent(row: Record): Change {
    Changed(if row.outbox.Some? then row.(outbox := Some(row.outbox.value.(state := SENDING))) else row)
  }

  // ---------------------------------------------------------------- the store

  /** One version check and write in one transaction, fenced by the generation of the scope. */
  function Write(s: Store, k: Key, base: Record, generation: nat, edit: Record -> Change): (Store, Change) {
    if s.generation != generation then (s, Refused(DRAFT_SCOPE_REVOKED))
    else if RecordOf(s.records, k).version != base.version then (s, Refused(DRAFT_CONFLICT))
    else
      var current := RecordOf(s.records, k);
      match edit(current)
      case Refused(code) => (s, Refused(code))
      case Changed(row) => var next := row.(version := current.version + 1); (s.(records := s.records[k := next]), Changed(next))
  }

  function Cleared(s: Store): Store { Store(s.generation + 1, map[]) }

  // ---------------------------------------------------------------- a page

  /** The common step of all operations: write through the version check, then adopt the stored row. `alive` says that the page still
      lives when the write is done. */
  function Mutate(s: Store, t: Tab, k: Key, edit: Record -> Change, alive: bool): (Store, Tab, Change) {
    if !t.ready then (s, t, Refused(DRAFT_STORAGE_UNAVAILABLE))
    else
      var (s', out) := Write(s, k, RecordOf(t.records, k), t.generation, edit);
      match out
      case Refused(code) => (s', t, out)
      case Changed(row) =>
        if !alive then (s', t.(ready := false), Refused(DRAFT_STORAGE_UNAVAILABLE))
        else (s', t.(records := t.records[k := row], errors := t.errors - {k}), out)
  }

  predicate InDoubt(row: Record) { row.outbox.Some? && (row.outbox.value.state == SENDING || row.outbox.value.state == UNKNOWN) }

  function MaySend(t: Tab, k: Key): Option<Code> {
    if !t.ready then Some(DRAFT_STORAGE_UNAVAILABLE)
    else if k in t.active then Some(IN_PROGRESS)
    else if k in t.errors then Some(t.errors[k])
    else if RecordOf(t.records, k).draft.text == 0 then Some(EMPTY_DRAFT)
    else if InDoubt(RecordOf(t.records, k)) then Some(DRAFT_RESULT_UNKNOWN)
    else None
  }

  function MayRetry(t: Tab, k: Key): Option<Code> {
    if !t.ready then Some(DRAFT_STORAGE_UNAVAILABLE)
    else if k in t.active then Some(IN_PROGRESS)
    else if RecordOf(t.records, k).outbox.None? || RecordOf(t.records, k).outbox.value.state == CONFIRMED then Some(NOTHING_TO_SEND)
    else None
  }

  // ---------------------------------------------------------------- the system

  datatype Post = Post(key: OutboxKey, payload: Payload)

  datatype Receipt = Receipt(payload: Payload, message: MessageId)

  /** posts: everything a page ever handed to the network; any of it may arrive late, twice or never. created: the payload stored when
      an outbox key was made. published: the server's messages in order. */
  datatype System = System(store: Store, tabs: map<TabId, Tab>, posts: set<Post>, receipts: map<OutboxKey, Receipt>, published: seq<Post>, created: map<OutboxKey, Payload>)

  /** What one page does between two waits. alive: the page still lives when its write is done. */
  datatype Action =
    | Type(draft: Draft)
    | Persist(alive: bool)
    | Send(replyTo: Option<MessageId>, outbox: OutboxKey, alive: bool)
    | Ack(outbox: OutboxKey, alive: bool)
    | Fail(outbox: OutboxKey, rejected: bool, alive: bool)
    | NoReceipt
    | Retry(alive: bool)
    | Release
    | Reload
    | Reread
    | Hear
    | Clear
    | HearClear

  datatype Event =
    | OpenPage(tab: TabId)
    | OnPage(page: TabId, key: Key, action: Action)
    | Arrive(post: Post, message: MessageId, accepted: bool)

  function NewTab(s: Store): Tab { Tab(true, s.generation, s.records, map[], [], 0, {}, map[]) }

  /** The step of a page that writes row k, with what it hands to the network when the write succeeded. */
  function Through(x: System, tab: TabId, k: Key, edit: Record -> Change, alive: bool): (System, Change)
    requires tab in x.tabs
  {
    var (s, t, out) := Mutate(x.store, x.tabs[tab], k, edit, alive);
    (x.(store := s, tabs := x.tabs[tab := t]), out)
  }

  function Posting(x: System, out: Change): System {
    if out.Changed? && out.row.outbox.Some? then x.(posts := x.posts + {Post(out.row.outbox.value.key, out.row.outbox.value.payload)}) else x
  }

  /** The rows in progress of a page, after an operation that holds row k while it is being delivered. */
  function Holding(x: System, tab: TabId, k: Key, out: Change): System {
    if out.Changed? && tab in x.tabs then WithTab(x, tab, x.tabs[tab].(active := x.tabs[tab].active + {k})) else x
  }

  function SendStep(x: System, tab: TabId, k: Key, replyTo: Option<MessageId>, key: OutboxKey, alive: bool): System
    requires tab in x.tabs
  {
    if MaySend(x.tabs[tab], k).Some? || key in x.created then x
    else
      var (y, out) := Through(x, tab, k, row => Submitted(row, replyTo, key), alive);
      var stored := RecordOf(y.store.records, k).outbox;
      var made := if y.store != x.store && stored.Some? then y.(created := y.created[key := stored.value.payload]) else y;
      Posting(Holding(made, tab, k, out), out)
  }

  /** The command receipt of the server: the first arrival of a key publishes, every other returns what the first one did. */
  function ArriveStep(x: System, post: Post, message: MessageId, accepted: bool): System {
    if post !in x.posts || post.key in x.receipts || !accepted then x
    else x.(receipts := x.receipts[post.key := Receipt(post.payload, message)], published := x.published + [post])
  }

  function ReloadStep(x: System, tab: TabId, k: Key): System
    requires tab in x.tabs
  {
    var t := x.tabs[tab];
    if !t.ready || x.store.generation != t.generation then x
    else x.(tabs := x.tabs[tab := t.(records := t.records[k := RecordOf(x.store.records, k)], local := t.local - {k}, errors := t.errors - {k})])
  }

  /** The first waiting write. What was typed is forgotten only if it is stored and nothing newer was typed. */
  function PersistStep(x: System, tab: TabId, k: Key, alive: bool): System
    requires tab in x.tabs
  {
    var t := x.tabs[tab];
    if t.queue == [] || t.queue[0].key != k then x
    else
      var first := t.queue[0].typed;
      var (y, out) := Through(x, tab, k, row => Edited(row, first.draft), alive);
      if tab in y.tabs then WithTab(y, tab, Persisted(y.tabs[tab], k, first, out)) else y
  }

  function Persisted(t: Tab, k: Key, typed: Typed, out: Change): Tab {
    var rest := if t.queue == [] then [] else t.queue[1..];
    if out.Refused? then t.(queue := rest, errors := t.errors[k := out.code])
    else t.(queue := rest, local := if k in t.local && t.local[k].sequence == typed.sequence then t.local - {k} else t.local)
  }

  function FailStep(x: System, tab: TabId, k: Key, key: OutboxKey, rejected: bool, alive: bool): System
    requires tab in x.tabs
  {
    var y := Through(x, tab, k, row => Undelivered(row, key, rejected), alive).0;
    if tab in y.tabs then WithTab(y, tab, Marked(y.tabs[tab], k, if rejected then DRAFT_SUBMISSION_REJECTED else DRAFT_RESULT_UNKNOWN)) else y
  }

  function Marked(t: Tab, k: Key, code: Code): Tab { t.(errors := t.errors[k := code]) }

  /** What an acknowledgement reads after a conflict: the cached row changes, what was typed and what went wrong stay. */
  function RereadTab(s: Store, t: Tab, k: Key): Tab {
    if t.ready && s.generation == t.generation && k in s.records then t.(records := t.records[k := s.records[k]]) else t
  }

  function RetryStep(x: System, tab: TabId, k: Key, alive: bool): System
    requires tab in x.tabs
  {
    if MayRetry(x.tabs[tab], k).Some? then x
    else
      var (y, out) := Through(x, tab, k, Resent, alive);
      Posting(Holding(y, tab, k, out), out)
  }

  function AckStep(x: System, tab: TabId, k: Key, key: OutboxKey, alive: bool): System
    requires tab in x.tabs
  {
    if key !in x.receipts then x else Through(x, tab, k, row => Acknowledged(row, key, x.receipts[key].message), alive).0
  }

  function TypedIn(t: Tab, k: Key, draft: Draft): Tab {
    var typed := Typed(draft, t.sequence + 1);
    t.(sequence := t.sequence + 1, local := t.local[k := typed], queue := t.queue + [Queued(k, typed)])
  }

  function WithTab(x: System, tab: TabId, t: Tab): System { x.(tabs := x.tabs[tab := t]) }

  function Act(x: System, tab: TabId, k: Key, a: Action): System
    requires tab in x.tabs
  {
    var t := x.tabs[tab];
    match a
    case Type(draft) => if t.ready then WithTab(x, tab, TypedIn(t, k, draft)) else x
    case Persist(alive) => PersistStep(x, tab, k, alive)
    case Send(replyTo, key, alive) => SendStep(x, tab, k, replyTo, key, alive)
    case Ack(key, alive) => AckStep(x, tab, k, key, alive)
    case Fail(key, rejected, alive) => FailStep(x, tab, k, key, rejected, alive)
    case NoReceipt => WithTab(x, tab, Marked(t, k, DRAFT_NO_RECEIPT))
    case Retry(alive) => RetryStep(x, tab, k, alive)
    case Release => WithTab(x, tab, t.(active := t.active - {k}))
    case Reread => WithTab(x, tab, RereadTab(x.store, t, k))
    case Reload => ReloadStep(x, tab, k)
    case Hear => WithTab(x, tab, Marked(t, k, DRAFT_CONFLICT))
    case Clear => WithTab(x, tab, t.(ready := false, records := map[], local := map[])).(store := Cleared(x.store))
    case HearClear => WithTab(x, tab, t.(ready := false, records := map[], local := map[]))
  }

  function Next(x: System, e: Event): System {
    match e
    case OpenPage(tab) => WithTab(x, tab, NewTab(x.store))
    case Arrive(post, message, accepted) => ArriveStep(x, post, message, accepted)
    case OnPage(tab, k, a) => if tab in x.tabs then Act(x, tab, k, a) else x
  }

  const Begin: System := System(Store(0, map[]), map[], {}, map[], [], map[])

  // ---------------------------------------------------------------- what every history keeps

  /** A stored outbox carries the payload its key was created with; a confirmed one names the message that the server made of it. */
  ghost predicate OutboxOk(x: System, row: Record) {
    row.outbox.Some? ==>
      && row.outbox.value.key in x.created && x.created[row.outbox.value.key] == row.outbox.value.payload
      && row.outbox.value.editVersion <= row.editVersion
      && (row.outbox.value.state == CONFIRMED ==>
            row.outbox.value.key in x.receipts && row.outbox.value.message == Some(x.receipts[row.outbox.value.key].message))
  }

  /** A page of the present generation lags behind the store or agrees with it: equal versions mean equal rows. */
  ghost predicate TabOk(x: System, t: Tab) {
    && t.generation <= x.store.generation
    && (t.generation == x.store.generation && t.ready ==>
          forall k :: k in t.records ==> t.records[k].version <= RecordOf(x.store.records, k).version &&
                                         (t.records[k].version == RecordOf(x.store.records, k).version ==> t.records[k] == RecordOf(x.store.records, k)))
  }

  ghost predicate Sound(x: System) {
    && (forall k :: k in x.store.records ==> OutboxOk(x, x.store.records[k]) && x.store.records[k].version > 0)
    && (forall tab :: tab in x.tabs ==> TabOk(x, x.tabs[tab]))
    && (forall p :: p in x.posts ==> p.key in x.created && x.created[p.key] == p.payload)
    && (forall key :: key in x.receipts ==> key in x.created && x.created[key] == x.receipts[key].payload)
    && (forall i :: 0 <= i < |x.published| ==> x.published[i].key in x.receipts && x.receipts[x.published[i].key].payload == x.published[i].payload)
    && (forall i, j :: 0 <= i < j < |x.published| ==> x.published[i].key != x.published[j].key)
    && (forall key :: key in x.receipts ==> exists i :: 0 <= i < |x.published| && x.published[i].key == key)
  }

  // ---------------------------------------------------------------- writes

  /** The row that a successful write stores. */
  function Stored(x: System, k: Key): Record { RecordOf(x.store.records, k) }

  /** What a page's write does to the system: it is refused and the page may have died, or row k moves to its next version. */
  ghost predicate Wrote(x: System, y: System, tab: TabId, k: Key, edit: Record -> Change) {
    && tab in x.tabs && y == x.(store := y.store, tabs := y.tabs) && y.tabs.Keys == x.tabs.Keys
    && (forall o :: o in x.tabs && o != tab ==> y.tabs[o] == x.tabs[o])
    && (y.store == x.store ==> y.tabs == x.tabs)
    && (y.store != x.store ==> Advances(x, y, tab, k, edit))
  }

  ghost predicate Advances(x: System, y: System, tab: TabId, k: Key, edit: Record -> Change)
    requires tab in x.tabs && tab in y.tabs
  {
    var t, row := x.tabs[tab], Stored(x, k);
    && t.ready && t.generation == x.store.generation && RecordOf(t.records, k).version == row.version
    && edit(row).Changed? && y.store == x.store.(records := x.store.records[k := edit(row).row.(version := row.version + 1)])
    && (y.tabs[tab] == t.(ready := false) || y.tabs[tab] == t.(records := t.records[k := edit(row).row.(version := row.version + 1)], errors := t.errors - {k}))
  }

  lemma ThroughWrites(x: System, tab: TabId, k: Key, edit: Record -> Change, alive: bool)
    requires tab in x.tabs
    ensures var (y, out) := Through(x, tab, k, edit, alive);
      Wrote(x, y, tab, k, edit) && (out.Changed? ==> y.store != x.store && out.row == Stored(y, k))
  {
    var (s, t, out) := Mutate(x.store, x.tabs[tab], k, edit, alive);
    if s != x.store || out.Changed? {
      assert RecordOf(s.records, k).version == RecordOf(x.store.records, k).version + 1;
    }
    assert x.tabs[tab := x.tabs[tab]] == x.tabs;
  }

  /** A write that keeps the outbox honest keeps everything. */
  lemma WriteKeepsSound(x: System, y: System, tab: TabId, k: Key, edit: Record -> Change)
    requires Sound(x) && Wrote(x, y, tab, k, edit)
    requires edit(Stored(x, k)).Changed? ==> OutboxOk(x, edit(Stored(x, k)).row)
    ensures Sound(y)
  {
    if y.store != x.store {
      forall o | o in y.tabs ensures TabOk(y, y.tabs[o]) { assert TabOk(x, x.tabs[o]); }
      forall j | j in y.store.records ensures OutboxOk(y, y.store.records[j]) && y.store.records[j].version > 0 {
        if j != k { assert OutboxOk(x, x.store.records[j]); }
      }
    } else {
      assert y == x;
    }
  }

  lemma StoredOk(x: System, k: Key)
    requires Sound(x)
    ensures OutboxOk(x, Stored(x, k))
  {
  }

  // ---------------------------------------------------------------- steps

  lemma TabOnlyKeepsSound(x: System, tab: TabId, t: Tab)
    requires Sound(x) && TabOk(x, t)
    ensures Sound(WithTab(x, tab, t))
  {
    var y := WithTab(x, tab, t);
    forall o | o in y.tabs ensures TabOk(y, y.tabs[o]) { if o != tab { assert TabOk(x, x.tabs[o]); } else { assert TabOk(x, t); } }
    forall j | j in y.store.records ensures OutboxOk(y, y.store.records[j]) { assert OutboxOk(x, x.store.records[j]); }
  }

  /** Whatever a page keeps beside its rows does not matter. */
  lemma RestKeepsSound(x: System, tab: TabId, t: Tab)
    requires Sound(x) && tab in x.tabs && t.ready == x.tabs[tab].ready && t.generation == x.tabs[tab].generation && t.records == x.tabs[tab].records
    ensures Sound(WithTab(x, tab, t))
  {
    assert TabOk(x, x.tabs[tab]);
    TabOnlyKeepsSound(x, tab, t);
  }

  lemma SimpleWritesKeepSound(x: System, tab: TabId, k: Key, a: Action)
    requires Sound(x) && tab in x.tabs && (a.Persist? || a.Ack? || a.Fail?)
    ensures Sound(Act(x, tab, k, a))
  {
    hide Sound, Wrote, Through;
    StoredOk(x, k);
    match a
    case Persist(alive) =>
      var t := x.tabs[tab];
      if t.queue != [] && t.queue[0].key == k {
        var first := t.queue[0].typed;
        var edit := row => Edited(row, first.draft);
        ThroughWrites(x, tab, k, edit, alive);
        var (y, out) := Through(x, tab, k, edit, alive);
        WriteKeepsSound(x, y, tab, k, edit);
        if tab in y.tabs { RestKeepsSound(y, tab, Persisted(y.tabs[tab], k, first, out)); }
      }
    case Ack(key, alive) =>
      if key in x.receipts {
        var edit := row => Acknowledged(row, key, x.receipts[key].message);
        ThroughWrites(x, tab, k, edit, alive);
        WriteKeepsSound(x, Through(x, tab, k, edit, alive).0, tab, k, edit);
      }
    case Fail(key, rejected, alive) =>
      var edit := row => Undelivered(row, key, rejected);
      ThroughWrites(x, tab, k, edit, alive);
      var y := Through(x, tab, k, edit, alive).0;
      WriteKeepsSound(x, y, tab, k, edit);
      if tab in y.tabs { RestKeepsSound(y, tab, Marked(y.tabs[tab], k, if rejected then DRAFT_SUBMISSION_REJECTED else DRAFT_RESULT_UNKNOWN)); }
  }

  lemma HoldingKeepsSound(x: System, tab: TabId, k: Key, out: Change)
    requires Sound(x)
    ensures Sound(Holding(x, tab, k, out)) && Stored(Holding(x, tab, k, out), k) == Stored(x, k)
  {
    hide Sound;
    if out.Changed? && tab in x.tabs { RestKeepsSound(x, tab, x.tabs[tab].(active := x.tabs[tab].active + {k})); }
  }

  /** Handing a stored outbox to the network keeps every post honest. */
  lemma PostingKeepsSound(x: System, k: Key, out: Change)
    requires Sound(x) && (out.Changed? ==> out.row == Stored(x, k))
    ensures Sound(Posting(x, out))
  {
    var y := Posting(x, out);
    StoredOk(x, k);
    forall o | o in y.tabs ensures TabOk(y, y.tabs[o]) { assert TabOk(x, x.tabs[o]); }
    forall j | j in y.store.records ensures OutboxOk(y, y.store.records[j]) { assert OutboxOk(x, x.store.records[j]); }
  }

  lemma RetryKeepsSound(x: System, tab: TabId, k: Key, alive: bool)
    requires Sound(x) && tab in x.tabs
    ensures Sound(RetryStep(x, tab, k, alive))
  {
    hide Sound, Wrote, Through, Posting;
    StoredOk(x, k);
    ThroughWrites(x, tab, k, Resent, alive);
    var (y, out) := Through(x, tab, k, Resent, alive);
    WriteKeepsSound(x, y, tab, k, Resent);
    HoldingKeepsSound(y, tab, k, out);
    PostingKeepsSound(Holding(y, tab, k, out), k, out);
  }

  /** A fresh key may be entered with any payload: nothing refers to it yet. */
  lemma CreatingKeepsSound(x: System, key: OutboxKey, payload: Payload)
    requires Sound(x) && key !in x.created
    ensures Sound(x.(created := x.created[key := payload]))
  {
    var y := x.(created := x.created[key := payload]);
    forall o | o in y.tabs ensures TabOk(y, y.tabs[o]) { assert TabOk(x, x.tabs[o]); }
    forall j | j in y.store.records ensures OutboxOk(y, y.store.records[j]) { assert OutboxOk(x, x.store.records[j]); }
  }

  lemma SendKeepsSound(x: System, tab: TabId, k: Key, replyTo: Option<MessageId>, key: OutboxKey, alive: bool)
    requires Sound(x) && tab in x.tabs
    ensures Sound(SendStep(x, tab, k, replyTo, key, alive))
  {
    hide Sound, Wrote, Posting, MaySend;
    if MaySend(x.tabs[tab], k).None? && key !in x.created {
      var edit := row => Submitted(row, replyTo, key);
      var payload := PayloadOf(Stored(x, k), replyTo);
      var x1 := x.(created := x.created[key := payload]);
      CreatingKeepsSound(x, key, payload);
      StoredOk(x1, k);
      SubmittedOk(x1, Stored(x, k), replyTo, key);
      ThroughWrites(x, tab, k, edit, alive);
      ThroughWrites(x1, tab, k, edit, alive);
      var (y, out) := Through(x, tab, k, edit, alive);
      var (y1, out1) := Through(x1, tab, k, edit, alive);
      ThroughIgnoresCreated(x, x1, tab, k, edit, alive);
      WriteKeepsSound(x1, y1, tab, k, edit);
      if y.store != x.store {
        StoredIs(x1, y1, tab, k, edit);
        HoldingKeepsSound(y1, tab, k, out);
        PostingKeepsSound(Holding(y1, tab, k, out), k, out);
      } else {
        RefusedChangesNothing(x, y, tab, k, edit);
        HoldingKeepsSound(x, tab, k, out);
        PostingKeepsSound(Holding(x, tab, k, out), k, out);
      }
    }
  }

  lemma SubmittedOk(x: System, row: Record, replyTo: Option<MessageId>, key: OutboxKey)
    requires OutboxOk(x, row) && key in x.created && x.created[key] == PayloadOf(row, replyTo)
    ensures OutboxOk(x, Submitted(row, replyTo, key).row)
  {
  }

  lemma ThroughIgnoresCreated(x: System, x1: System, tab: TabId, k: Key, edit: Record -> Change, alive: bool)
    requires tab in x.tabs && x1 == x.(created := x1.created)
    ensures Through(x1, tab, k, edit, alive) == (var (y, out) := Through(x, tab, k, edit, alive); (y.(created := x1.created), out))
  {
  }

  lemma StoredIs(x: System, y: System, tab: TabId, k: Key, edit: Record -> Change)
    requires Wrote(x, y, tab, k, edit) && y.store != x.store
    ensures edit(Stored(x, k)).Changed? && Stored(y, k).outbox == edit(Stored(x, k)).row.outbox
  {
  }

  lemma RefusedChangesNothing(x: System, y: System, tab: TabId, k: Key, edit: Record -> Change)
    requires Wrote(x, y, tab, k, edit) && y.store == x.store
    ensures y == x
  {
  }

  lemma PageOnlyKeepsSound(x: System, tab: TabId, k: Key, a: Action)
    requires Sound(x) && tab in x.tabs && (a.Type? || a.Hear? || a.HearClear? || a.Reload? || a.Reread? || a.NoReceipt? || a.Release?)
    ensures Sound(Act(x, tab, k, a))
  {
    hide Sound;
    var y := Act(x, tab, k, a);
    assert TabOk(x, x.tabs[tab]) by { PageIsOk(x, tab); }
    if y != x { TabOnlyKeepsSound(x, tab, y.tabs[tab]); }
  }

  lemma PageIsOk(x: System, tab: TabId)
    requires Sound(x) && tab in x.tabs
    ensures TabOk(x, x.tabs[tab])
  {
  }

  /** Logging out fences every page: the rows are gone and no page of the old generation can write again. */
  lemma ClearKeepsSound(x: System, tab: TabId, k: Key)
    requires Sound(x) && tab in x.tabs
    ensures Sound(Act(x, tab, k, Clear))
  {
    var y := Act(x, tab, k, Clear);
    forall o | o in y.tabs ensures TabOk(y, y.tabs[o]) { assert TabOk(x, x.tabs[o]); }
  }

  lemma ArriveKeepsSound(x: System, post: Post, message: MessageId, accepted: bool)
    requires Sound(x)
    ensures Sound(ArriveStep(x, post, message, accepted))
  {
    var y := ArriveStep(x, post, message, accepted);
    forall o | o in y.tabs ensures TabOk(y, y.tabs[o]) { assert TabOk(x, x.tabs[o]); }
    forall j | j in y.store.records ensures OutboxOk(y, y.store.records[j]) { assert OutboxOk(x, x.store.records[j]); }
    if y != x { assert y.published[|x.published|].key == post.key; }
    forall key | key in y.receipts ensures exists i :: 0 <= i < |y.published| && y.published[i].key == key {
      if key in x.receipts {
        var i :| 0 <= i < |x.published| && x.published[i].key == key;
        assert y.published[i].key == key;
      }
    }
  }

  lemma OpenKeepsSound(x: System, tab: TabId)
    requires Sound(x)
    ensures Sound(WithTab(x, tab, NewTab(x.store)))
  {
    TabOnlyKeepsSound(x, tab, NewTab(x.store));
  }

  lemma NextKeepsSound(x: System, e: Event)
    requires Sound(x)
    ensures Sound(Next(x, e))
  {
    hide Sound, Act, ArriveStep;
    match e
    case OpenPage(tab) => OpenKeepsSound(x, tab);
    case Arrive(post, message, accepted) => ArriveKeepsSound(x, post, message, accepted);
    case OnPage(tab, k, a) =>
      if tab in x.tabs { ActKeepsSound(x, tab, k, a); }
  }

  lemma ActKeepsSound(x: System, tab: TabId, k: Key, a: Action)
    requires Sound(x) && tab in x.tabs
    ensures Sound(Act(x, tab, k, a))
  {
    hide Sound, SendStep, RetryStep, PersistStep, AckStep, ReloadStep, FailStep, Through;
    if a.Persist? || a.Ack? || a.Fail? { SimpleWritesKeepSound(x, tab, k, a); }
    else if a.Send? { SendKeepsSound(x, tab, k, a.replyTo, a.outbox, a.alive); }
    else if a.Retry? { RetryKeepsSound(x, tab, k, a.alive); }
    else if a.Clear? { ClearKeepsSound(x, tab, k); }
    else { PageOnlyKeepsSound(x, tab, k, a); }
  }

  function Run(x: System, events: seq<Event>): System
    decreases |events|
  {
    if events == [] then x else Run(Next(x, events[0]), events[1..])
  }

  lemma {:induction false} RunKeepsSound(x: System, events: seq<Event>)
    requires Sound(x)
    ensures Sound(Run(x, events))
    decreases |events|
  {
    hide Sound, Next;
    if events != [] {
      NextKeepsSound(x, events[0]);
      RunKeepsSound(Next(x, events[0]), events[1..]);
    }
  }

  /** Through lost and repeated requests, lost responses, reloads and any number of pages: every request under a key carries the payload
      that was stored when the key was made, the server publishes at most one message for it, with exactly that payload, and what a page
      holds for confirmed was published. */
  lemma {:induction false} SubmittedAtMostOnce(events: seq<Event>)
    ensures var x := Run(Begin, events);
      && (forall p :: p in x.posts ==> p.key in x.created && p.payload == x.created[p.key])
      && (forall i :: 0 <= i < |x.published| ==> x.published[i].key in x.created && x.published[i].payload == x.created[x.published[i].key])
      && (forall i, j :: 0 <= i < j < |x.published| ==> x.published[i].key != x.published[j].key)
      && (forall k :: k in x.store.records && x.store.records[k].outbox.Some? && x.store.records[k].outbox.value.state == CONFIRMED ==>
            exists i :: 0 <= i < |x.published| && x.published[i] == Post(x.store.records[k].outbox.value.key, x.store.records[k].outbox.value.payload))
  {
    hide TabOk;
    assert Sound(Begin);
    RunKeepsSound(Begin, events);
    var x := Run(Begin, events);
    forall k | k in x.store.records && x.store.records[k].outbox.Some? && x.store.records[k].outbox.value.state == CONFIRMED
      ensures exists i :: 0 <= i < |x.published| && x.published[i] == Post(x.store.records[k].outbox.value.key, x.store.records[k].outbox.value.payload)
    {
      var o := x.store.records[k].outbox.value;
      assert OutboxOk(x, x.store.records[k]);
      var i :| 0 <= i < |x.published| && x.published[i].key == o.key;
      assert x.published[i] == Post(o.key, o.payload);
    }
  }

  /** A new key is made only where the stored row has no submission in doubt, however stale the page that asks for it. */
  lemma {:induction false} NoNewKeyInDoubt(x: System, tab: TabId, k: Key, replyTo: Option<MessageId>, key: OutboxKey, alive: bool)
    requires Sound(x) && tab in x.tabs && SendStep(x, tab, k, replyTo, key, alive).created != x.created
    ensures !InDoubt(Stored(x, k)) && key !in x.created
    ensures var y := SendStep(x, tab, k, replyTo, key, alive);
      y.created == x.created[key := PayloadOf(Stored(x, k), replyTo)] && Stored(y, k).outbox == Some(Outbox(key, PayloadOf(Stored(x, k), replyTo), Stored(x, k).editVersion, SENDING, None))
  {
    hide Through;
    var edit := row => Submitted(row, replyTo, key);
    ThroughWrites(x, tab, k, edit, alive);
    assert TabOk(x, x.tabs[tab]);
    var (y, out) := Through(x, tab, k, edit, alive);
    StoredIs(x, y, tab, k, edit);
    assert Stored(x, k) == RecordOf(x.tabs[tab].records, k);
  }

  // ---------------------------------------------------------------- acknowledgements and later edits

  /** Row k still shows submission `key`, and the draft has been edited since. */
  predicate EditedSince(x: System, k: Key, key: OutboxKey) {
    Stored(x, k).outbox.Some? && Stored(x, k).outbox.value.key == key ==> Stored(x, k).editVersion > Stored(x, k).outbox.value.editVersion
  }

  /** An acknowledgement touches no page's unsaved draft, and a stored draft only if it is exactly the submitted one. */
  lemma {:induction false} AckSparesEdits(x: System, tab: TabId, k: Key, key: OutboxKey, alive: bool)
    requires tab in x.tabs
    ensures var y := AckStep(x, tab, k, key, alive);
      && (forall o :: o in x.tabs ==> o in y.tabs && y.tabs[o].local == x.tabs[o].local)
      && (forall j :: j != k ==> Stored(y, j) == Stored(x, j))
      && (Stored(y, k).draft == Stored(x, k).draft ||
            (Stored(x, k).outbox.Some? && Stored(x, k).outbox.value.key == key && Untouched(Stored(x, k), Stored(x, k).outbox.value) &&
             Stored(y, k).draft == Stored(x, k).draft.(text := 0)))
      && (EditedSince(x, k, key) ==> Stored(y, k).draft == Stored(x, k).draft)
  {
    hide Through;
    if key in x.receipts {
      var edit := row => Acknowledged(row, key, x.receipts[key].message);
      ThroughWrites(x, tab, k, edit, alive);
    }
  }

  /** A typed draft that is stored moves the row past every earlier submission. */
  lemma EditMarks(x: System, tab: TabId, k: Key, alive: bool, key: OutboxKey)
    requires Sound(x) && tab in x.tabs && PersistStep(x, tab, k, alive).store != x.store
    ensures var y := PersistStep(x, tab, k, alive);
      EditedSince(y, k, key) && x.tabs[tab].queue != [] && Stored(y, k).draft == x.tabs[tab].queue[0].typed.draft && y.created == x.created
  {
    hide Through;
    StoredOk(x, k);
    ThroughWrites(x, tab, k, row => Edited(row, x.tabs[tab].queue[0].typed.draft), alive);
  }

  /** A write keeps the mark if its edit does: it keeps the outbox or makes one under another key. */
  lemma WriteKeepsMark(x: System, y: System, page: TabId, j: Key, edit: Record -> Change, k: Key, key: OutboxKey)
    requires EditedSince(x, k, key) && Wrote(x, y, page, j, edit)
    requires edit(Stored(x, j)).Changed? ==>
      var row, next := Stored(x, j), edit(Stored(x, j)).row;
      && next.editVersion >= row.editVersion
      && (next.outbox.Some? && next.outbox.value.key == key ==>
            row.outbox.Some? && row.outbox.value.key == key && next.outbox.value.editVersion == row.outbox.value.editVersion)
    ensures EditedSince(y, k, key)
  {
  }

  lemma MarkStays(x: System, e: Event, k: Key, key: OutboxKey)
    requires Sound(x) && EditedSince(x, k, key) && key in x.created
    ensures EditedSince(Next(x, e), k, key) && key in Next(x, e).created
  {
    hide Through, Sound, Wrote, EditedSince;
    if e.OnPage? && e.page in x.tabs {
      ActKeepsMark(x, e.page, e.key, e.action, k, key);
    } else {
      SameStore(x, Next(x, e), k, key);
    }
  }

  lemma SendIs(x: System, page: TabId, j: Key, replyTo: Option<MessageId>, key: OutboxKey, alive: bool)
    requires page in x.tabs
    ensures SendStep(x, page, j, replyTo, key, alive) == x ||
      var (y, out) := Through(x, page, j, row => Submitted(row, replyTo, key), alive);
      SendStep(x, page, j, replyTo, key, alive) == Posting(Holding(y.(created := SendStep(x, page, j, replyTo, key, alive).created), page, j, out), out)
  {
  }

  lemma SameStore(x: System, y: System, k: Key, key: OutboxKey)
    requires EditedSince(x, k, key) && (y.store == x.store || y.store.records == map[])
    ensures EditedSince(y, k, key)
  {
  }

  lemma ActKeepsMark(x: System, page: TabId, j: Key, a: Action, k: Key, key: OutboxKey)
    requires EditedSince(x, k, key) && key in x.created && page in x.tabs
    ensures EditedSince(Act(x, page, j, a), k, key) && key in Act(x, page, j, a).created
  {
    hide Through, Wrote, EditedSince;
    var y := Act(x, page, j, a);
    match a
    case Persist(alive) =>
      var queue := x.tabs[page].queue;
      if queue != [] && queue[0].key == j {
        var edit := row => Edited(row, queue[0].typed.draft);
        ThroughWrites(x, page, j, edit, alive);
        WriteKeepsMark(x, Through(x, page, j, edit, alive).0, page, j, edit, k, key);
        SameStore(Through(x, page, j, edit, alive).0, y, k, key);
      }
    case Send(replyTo, outbox, alive) =>
      var edit := row => Submitted(row, replyTo, outbox);
      ThroughWrites(x, page, j, edit, alive);
      if outbox != key {
        WriteKeepsMark(x, Through(x, page, j, edit, alive).0, page, j, edit, k, key);
        SendIs(x, page, j, replyTo, outbox, alive);
        if y != x { SameStore(Through(x, page, j, edit, alive).0, y, k, key); }
      }
    case Ack(outbox, alive) =>
      if outbox in x.receipts {
        var edit := row => Acknowledged(row, outbox, x.receipts[outbox].message);
        ThroughWrites(x, page, j, edit, alive);
        WriteKeepsMark(x, Through(x, page, j, edit, alive).0, page, j, edit, k, key);
      }
    case Fail(outbox, rejected, alive) =>
      var edit := row => Undelivered(row, outbox, rejected);
      ThroughWrites(x, page, j, edit, alive);
      WriteKeepsMark(x, Through(x, page, j, edit, alive).0, page, j, edit, k, key);
      SameStore(Through(x, page, j, edit, alive).0, y, k, key);
    case Retry(alive) =>
      ThroughWrites(x, page, j, Resent, alive);
      WriteKeepsMark(x, Through(x, page, j, Resent, alive).0, page, j, Resent, k, key);
      if MayRetry(x.tabs[page], j).None? { SameStore(Through(x, page, j, Resent, alive).0, y, k, key); }
    case _ => SameStore(x, y, k, key);
  }

  lemma {:induction false} MarkedSurvives(x: System, events: seq<Event>, tab: TabId, k: Key, key: OutboxKey, alive: bool)
    requires Sound(x) && EditedSince(x, k, key) && key in x.created
    requires tab in Run(x, events).tabs
    ensures Stored(AckStep(Run(x, events), tab, k, key, alive), k).draft == Stored(Run(x, events), k).draft
    decreases |events|
  {
    hide Sound, Next, EditedSince, AckStep;
    if events == [] {
      AckSparesEdits(x, tab, k, key, alive);
    } else {
      NextKeepsSound(x, events[0]);
      MarkStays(x, events[0], k, key);
      MarkedSurvives(Next(x, events[0]), events[1..], tab, k, key, alive);
    }
  }

  /** Once an edit is stored after a submission was made, no acknowledgement of that submission, of whatever page and however late, ever
      erases the draft, whatever happens between. */
  lemma LaterEditsSurvive(before: seq<Event>, editor: TabId, k: Key, living: bool, events: seq<Event>, tab: TabId, key: OutboxKey, alive: bool)
    requires var x := Run(Begin, before); editor in x.tabs && key in x.created && PersistStep(x, editor, k, living).store != x.store
    requires tab in Run(PersistStep(Run(Begin, before), editor, k, living), events).tabs
    ensures var last := Run(PersistStep(Run(Begin, before), editor, k, living), events); Stored(AckStep(last, tab, k, key, alive), k).draft == Stored(last, k).draft
  {
    hide Sound, PersistStep, AckStep, EditedSince;
    var x := Run(Begin, before);
    BeginIsSound();
    RunKeepsSound(Begin, before);
    EditMarks(x, editor, k, living, key);
    SimpleWritesKeepSound(x, editor, k, Persist(living));
    MarkedSurvives(PersistStep(x, editor, k, living), events, tab, k, key, alive);
  }

  lemma BeginIsSound()
    ensures Sound(Begin)
  {
  }
}
