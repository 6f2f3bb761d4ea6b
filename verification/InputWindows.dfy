/** The notification log of a session, the bounded windows that are cut from it for an owner, and the check that accepts them. */
module InputWindows {
  import opened Wrappers

  type Owner = nat
  type MessageId = nat
  type SourceId = nat
  type NoteId = nat

  datatype Kind = OfMessage | OfSource

  /** Ids come from one counter and only grow. */
  datatype Notice = Notice(id: nat, kind: Kind, entity: nat, version: nat)

  /** One version of a source: who may read it, and how long its text is. audience None admits every owner. */
  datatype Access = Access(enabled: bool, audience: Option<set<Owner>>, length: nat)

  /** One session's inputs: its log, the present revision of each message, and every version of each source. */
  datatype Store = Store(log: seq<Notice>, messages: map<MessageId, nat>, sources: map<SourceId, seq<Access>>)

  datatype Cursor = Cursor(observed: nat, memory: nat, target: nat, foregroundRuns: nat)

  /** superseded: the notice speaks of an older version than the one shown. excerpt: only the first part of a long source is shown. */
  datatype Entry = Entry(inputId: nat, kind: Kind, entity: nat, eventVersion: nat, version: nat, superseded: bool, excerpt: bool)

  datatype Window = Window(memory: bool, from: nat, through: nat, target: nat, complete: bool, entries: seq<Entry>)

  /** The part of the request that selection fills. */
  datatype Draft = Draft(entries: seq<Entry>, through: nat, complete: bool, messages: seq<MessageId>, sources: seq<SourceId>, recalled: seq<NoteId>)

  datatype Request = Request(window: Window, messages: seq<MessageId>, sources: seq<(SourceId, nat)>, recalled: seq<NoteId>)

  datatype RunKind = Foreground | Observe | Memory

  datatype Code = CONTEXT_LIMIT | INPUT_SOURCE_MISSING | INPUT_PURPOSE_MISMATCH | STALE_INPUT_CURSOR | INPUT_COVERAGE_MISMATCH | STALE_INPUT_EVIDENCE | SOURCE_NOT_FOUND

  datatype Check = Pass | Fail(code: Code)

  datatype Selected<T> = Ok(value: T) | Err(code: Code)
  {
    predicate IsFailure() { Err? }
    function PropagateFailure<U>(): Selected<U> requires Err? { Err(code) }
    function Extract(): T requires Ok? { value }
  }

  function Max(a: nat, b: nat): nat { if a < b then b else a }

  function Min(a: nat, b: nat): nat { if a < b then a else b }

  // ---------------------------------------------------------------- visibility

  predicate Allows(a: Access, o: Owner) { a.enabled && (a.audience.None? || o in a.audience.value) }

  /** The owner may read the source now. */
  predicate Readable(s: Store, o: Owner, x: SourceId) {
    x in s.sources && s.sources[x] != [] && Allows(s.sources[x][|s.sources[x]| - 1], o)
  }

  /** Messages are visible to all; a source notice, if the owner may read both that version and the present one. */
  predicate Visible(s: Store, o: Owner, n: Notice) {
    n.kind == OfMessage ||
    (Readable(s, o, n.entity) && 0 < n.version <= |s.sources[n.entity]| && Allows(s.sources[n.entity][n.version - 1], o))
  }

  predicate InWindow(s: Store, o: Owner, from: nat, to: nat, n: Notice) { from < n.id <= to && Visible(s, o, n) }

  /** The visible notices with from < id <= to, in order of id. */
  function Between(s: Store, o: Owner, log: seq<Notice>, from: nat, to: nat): seq<Notice> {
    if log == [] then []
    else
      var last := log[|log| - 1];
      Between(s, o, log[..|log| - 1], from, to) + (if InWindow(s, o, from, to, last) then [last] else [])
  }

  function Highest(s: Store, o: Owner, log: seq<Notice>): nat {
    if log == [] then 0
    else Max(Highest(s, o, log[..|log| - 1]), if Visible(s, o, log[|log| - 1]) then log[|log| - 1].id else 0)
  }

  function High(s: Store, o: Owner, c: Cursor): nat { Max(Highest(s, o, s.log), Max(c.observed, c.memory)) }

  function CurrentVersion(s: Store, kind: Kind, entity: nat): Option<nat> {
    match kind
    case OfMessage => if entity in s.messages then Some(s.messages[entity]) else None
    case OfSource => if entity in s.sources then Some(|s.sources[entity]|) else None
  }

  /** The length of the present text of a source. */
  function LengthOf(s: Store, x: SourceId): nat { if x in s.sources && s.sources[x] != [] then s.sources[x][|s.sources[x]| - 1].length else 0 }

  /** How much of a source one request shows. */
  const CHUNK: nat := 1600

  // ---------------------------------------------------------------- cutting a window

  function From(c: Cursor, kind: RunKind): nat { if kind == Memory then c.memory else c.observed }

  /** A memory job drains towards the target it froze when it began; a new job freezes the present high-water mark. */
  function Target(s: Store, o: Owner, c: Cursor, kind: RunKind): nat {
    var all := Max(From(c, kind), High(s, o, c));
    if kind == Memory && c.target > c.memory then Max(c.memory, Min(all, c.target)) else all
  }

  function Frozen(s: Store, o: Owner, c: Cursor, kind: RunKind): Cursor {
    if kind == Memory && c.target <= c.memory then c.(target := Target(s, o, c, kind)) else c
  }

  function First<T>(rows: seq<T>, n: nat): seq<T> { if |rows| <= n then rows else rows[..n] }

  function Plus<T(==)>(s: seq<T>, x: T): seq<T> { if x in s then s else s + [x] }

  function EntryOf(s: Store, n: Notice): Selected<Entry> {
    var version := CurrentVersion(s, n.kind, n.entity);
    if version.None? then Err(INPUT_SOURCE_MISSING) else Ok(Entry(n.id, n.kind, n.entity, n.version, version.value, version.value != n.version, n.kind == OfSource && LengthOf(s, n.entity) > CHUNK))
  }

  function Extended(d: Draft, n: Notice, e: Entry, target: nat): Draft {
    Draft(d.entries + [e], n.id, n.id >= target, if n.kind == OfMessage then Plus(d.messages, n.entity) else d.messages,
          if n.kind == OfSource then Plus(d.sources, n.entity) else d.sources, d.recalled)
  }

  /** Rows are taken while they fit; the first is taken even without the optional headroom, or the request fails.
      fits(d, true) asks for the headroom, fits(d, false) for the plain limits. */
  function Fill(s: Store, fits: (Draft, bool) -> bool, lean: bool, rows: seq<Notice>, target: nat, d: Draft, i: nat): Selected<Draft>
    requires i <= |rows|
    decreases |rows| - i
  {
    if i == |rows| then Ok(d)
    else
      var e :- EntryOf(s, rows[i]);
      var next := Extended(d, rows[i], e, target);
      if fits(next, lean) then Fill(s, fits, lean, rows, target, next, i + 1)
      else if i == 0 then (if fits(next, false) then Ok(next) else Err(CONTEXT_LIMIT))
      else Ok(d)
  }

  /** Excluded notices behind the last entry do not hold the cursor back. */
  function Closed(s: Store, o: Owner, target: nat, d: Draft): Draft {
    if Between(s, o, s.log, d.through, target) == [] then d.(through := target, complete := true) else d
  }

  function Recall(fits: (Draft, bool) -> bool, lean: bool, d: Draft, notes: seq<NoteId>): Draft {
    if notes == [] then d
    else
      var before := Recall(fits, lean, d, notes[..|notes| - 1]);
      var next := before.(recalled := before.recalled + [notes[|notes| - 1]]);
      if fits(next, lean) then next else before
  }

  function AddMessages(fits: (Draft, bool) -> bool, lean: bool, d: Draft, recent: seq<MessageId>): Draft {
    if recent == [] then d
    else
      var before, m := AddMessages(fits, lean, d, recent[..|recent| - 1]), recent[|recent| - 1];
      var next := before.(messages := before.messages + [m]);
      if m !in before.messages && fits(next, lean) then next else before
  }

  function AddSources(fits: (Draft, bool) -> bool, lean: bool, d: Draft, recent: seq<SourceId>): Draft {
    if recent == [] then d
    else
      var before, x := AddSources(fits, lean, d, recent[..|recent| - 1]), recent[|recent| - 1];
      var next := before.(sources := before.sources + [x]);
      if x !in before.sources && fits(next, lean) then next else before
  }

  /** The optional evidence that other components offer. */
  datatype Offer = Offer(messages: seq<MessageId>, sources: seq<SourceId>, notes: seq<NoteId>)

  function Optional(fits: (Draft, bool) -> bool, lean: bool, kind: RunKind, d: Draft, offer: Offer): Draft {
    var recalled := if kind == Observe then d else Recall(fits, lean, d, offer.notes);
    if kind != Foreground then recalled
    else AddSources(fits, lean, AddMessages(fits, lean, recalled, offer.messages), offer.sources)
  }

  function Versions(s: Store, sources: seq<SourceId>): seq<(SourceId, nat)> {
    seq(|sources|, i requires 0 <= i < |sources| => (sources[i], CurrentVersion(s, OfSource, sources[i]).GetOr(0)))
  }

  function Blank(from: nat, target: nat): Draft { Draft([], from, from >= target, [], [], []) }

  function Produce(s: Store, o: Owner, c: Cursor, kind: RunKind, limit: nat, fits: (Draft, bool) -> bool, offer: Offer): Selected<Request> {
    var from, target := From(c, kind), Target(s, o, c, kind);
    var lean := kind != Memory && fits(Blank(from, target), true);
    if !fits(Blank(from, target), lean) then Err(CONTEXT_LIMIT)
    else
      var rows := First(Between(s, o, s.log, from, target), limit);
      var filled :- Fill(s, fits, lean, rows, target, Blank(from, target), 0);
      var mandatory := Closed(s, o, target, filled);
      var d := Optional(fits, lean, kind, mandatory, offer);
      if !fits(d, false) then Err(CONTEXT_LIMIT)
      else Ok(Request(Window(kind == Memory, from, d.through, target, d.complete, d.entries), d.messages, Versions(s, d.sources), d.recalled))
  }

  // ---------------------------------------------------------------- checking a window

  predicate Matches(n: Notice, e: Entry) { n.id == e.inputId && n.kind == e.kind && n.entity == e.entity && n.version == e.eventVersion }

  predicate Covers(rows: seq<Notice>, entries: seq<Entry>) {
    |rows| == |entries| && forall i :: 0 <= i < |rows| ==> Matches(rows[i], entries[i])
  }

  /** The first entry that is not what the owner would read now. */
  function StaleEntry(s: Store, o: Owner, entries: seq<Entry>): Check {
    if entries == [] then Pass
    else
      var e := entries[0];
      if e.kind == OfSource && !Readable(s, o, e.entity) then Fail(SOURCE_NOT_FOUND)
      else if CurrentVersion(s, e.kind, e.entity) != Some(e.version) then Fail(STALE_INPUT_EVIDENCE)
      else StaleEntry(s, o, entries[1..])
  }

  function StaleSource(s: Store, o: Owner, sources: seq<(SourceId, nat)>): Check {
    if sources == [] then Pass
    else if !Readable(s, o, sources[0].0) then Fail(SOURCE_NOT_FOUND)
    else if CurrentVersion(s, OfSource, sources[0].0) != Some(sources[0].1) then Fail(STALE_INPUT_EVIDENCE)
    else StaleSource(s, o, sources[1..])
  }

  function Validate(s: Store, o: Owner, c: Cursor, kind: RunKind, r: Request): Check {
    var w := r.window;
    if w.memory != (kind == Memory) then Fail(INPUT_PURPOSE_MISMATCH)
    else if w.from != From(c, kind) then Fail(STALE_INPUT_CURSOR)
    else if !Covers(Between(s, o, s.log, w.from, w.through), w.entries) then Fail(INPUT_COVERAGE_MISMATCH)
    else if !(w.from <= w.through <= w.target <= Max(w.from, High(s, o, c)) && w.complete == (w.through >= w.target)) then Fail(INPUT_COVERAGE_MISMATCH)
    else if StaleEntry(s, o, w.entries).Fail? then StaleEntry(s, o, w.entries)
    else StaleSource(s, o, r.sources)
  }

  function Accepted(s: Store, o: Owner, c: Cursor, kind: RunKind, w: Window): Cursor {
    if kind != Memory then c.(observed := w.through, foregroundRuns := c.foregroundRuns + 1)
    else
      var moved := c.(memory := w.through, foregroundRuns := 0);
      if w.complete then moved.(target := High(s, o, moved)) else moved
  }

  // ---------------------------------------------------------------- the log

  predicate LogOk(log: seq<Notice>) {
    && (forall i :: 0 <= i < |log| ==> 0 < log[i].id)
    && (forall i, j :: 0 <= i < j < |log| ==> log[i].id < log[j].id)
  }

  /** Every notice has its message or its source version behind it. */
  predicate StoreOk(s: Store) {
    && LogOk(s.log)
    && (forall i :: 0 <= i < |s.log| ==> CurrentVersion(s, s.log[i].kind, s.log[i].entity).Some?)
  }

  lemma {:induction false} BetweenRows(s: Store, o: Owner, log: seq<Notice>, from: nat, to: nat)
    requires LogOk(log)
    ensures var rows := Between(s, o, log, from, to);
      && LogOk(rows) && |rows| <= |log|
      && (forall n :: n in rows <==> n in log && InWindow(s, o, from, to, n))
  {
    if log != [] {
      var k := |log| - 1;
      BetweenRows(s, o, log[..k], from, to);
      var rows := Between(s, o, log[..k], from, to);
      forall n | n in rows ensures n.id < log[k].id { assert n in log[..k]; }
      assert log == log[..k] + [log[k]];
      var all := Between(s, o, log, from, to);
      forall i, j | 0 <= i < j < |all| ensures all[i].id < all[j].id {
        assert i < |rows| && all[i] == rows[i];
        if j == |rows| { assert all[i] in rows; }
      }
    }
  }

  /** Cutting at a row, or anywhere behind the last row, keeps the rows before it. */
  lemma {:induction false} BetweenSplits(s: Store, o: Owner, log: seq<Notice>, from: nat, mid: nat, to: nat)
    requires LogOk(log) && from <= mid <= to
    ensures Between(s, o, log, from, to) == Between(s, o, log, from, mid) + Between(s, o, log, mid, to)
  {
    hide Visible;
    if log != [] {
      var k := |log| - 1;
      var whole, left, right := Between(s, o, log[..k], from, to), Between(s, o, log[..k], from, mid), Between(s, o, log[..k], mid, to);
      LogPrefix(log);
      BetweenSplits(s, o, log[..k], from, mid, to);
      var last := log[k];
      if last.id <= mid {
        NothingBehind(s, o, log[..k], last.id, mid, to);
        assert right == [];
      } else {
        assert Between(s, o, log, from, mid) == left;
      }
    }
  }

  lemma LogPrefix(log: seq<Notice>)
    requires LogOk(log) && log != []
    ensures LogOk(log[..|log| - 1]) && forall n :: n in log[..|log| - 1] ==> n.id < log[|log| - 1].id
  {
  }

  lemma {:induction false} NothingBehind(s: Store, o: Owner, log: seq<Notice>, bound: nat, from: nat, to: nat)
    requires LogOk(log) && (forall n :: n in log ==> n.id < bound) && bound <= from
    ensures Between(s, o, log, from, to) == []
  {
    if log != [] { NothingBehind(s, o, log[..|log| - 1], bound, from, to); }
  }

  lemma {:induction false} HighestIs(s: Store, o: Owner, log: seq<Notice>)
    ensures forall n :: n in log && Visible(s, o, n) ==> n.id <= Highest(s, o, log)
    ensures Highest(s, o, log) == 0 || exists n :: n in log && Visible(s, o, n) && n.id == Highest(s, o, log)
  {
    if log != [] {
      var k := |log| - 1;
      HighestIs(s, o, log[..k]);
      assert log == log[..k] + [log[k]];
      if Highest(s, o, log) != 0 && Highest(s, o, log) == Highest(s, o, log[..k]) {
        var n :| n in log[..k] && Visible(s, o, n) && n.id == Highest(s, o, log[..k]);
        assert n in log;
      } else {
        assert log[k] in log;
      }
    }
  }

  /** The first rows of the window up to a row are the window up to that row's id. */
  lemma PrefixIsWindow(s: Store, o: Owner, from: nat, to: nat, n: nat)
    requires LogOk(s.log) && n <= |Between(s, o, s.log, from, to)|
    ensures var rows := Between(s, o, s.log, from, to);
      Between(s, o, s.log, from, if n == 0 then from else rows[n - 1].id) == rows[..n]
  {
    var rows := Between(s, o, s.log, from, to);
    BetweenRows(s, o, s.log, from, to);
    if n == 0 {
      Empty(s, o, s.log, from);
    } else {
      var cut := rows[n - 1].id;
      assert rows[n - 1] in rows;
      BetweenSplits(s, o, s.log, from, cut, to);
      BetweenRows(s, o, s.log, from, cut);
      BetweenRows(s, o, s.log, cut, to);
      var left, right := Between(s, o, s.log, from, cut), Between(s, o, s.log, cut, to);
      var extra := if |left| > n then left[n].id else 0;
      forall i | 0 <= i < |left| ensures left[i].id <= cut { assert left[i] in left; }
      forall i | 0 <= i < |right| ensures right[i].id > cut { assert right[i] in right; }
      forall i | n <= i < |rows| ensures rows[i].id > cut {}
      assert |left| >= n;
      forall i | 0 <= i < |left| ensures left[i] == rows[i] {}
    }
  }

  lemma {:induction false} Empty(s: Store, o: Owner, log: seq<Notice>, at: nat)
    ensures Between(s, o, log, at, at) == []
  {
    if log != [] { Empty(s, o, log[..|log| - 1], at); }
  }
}
