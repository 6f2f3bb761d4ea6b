/** Rebuilding one session's rows from its frames. */
module Replay {
  import opened Wrappers
  import opened Journal

  const MAX_ROWS: nat := 200000

  datatype Header = Header(session: SessionId, high: nat, records: nat, baselineRecords: nat, schema: Schema)

  datatype State = State(tables: Tables, count: nat, baseline: nat, last: nat, started: bool, rowCount: int)

  datatype Code =
    | REPLAY_SEQUENCE_INVALID | REPLAY_TABLE_INVALID | REPLAY_FRAME_INVALID | REPLAY_BEFORE_INVALID | REPLAY_AFTER_INVALID | REPLAY_KEY_MISMATCH
    | REPLAY_INSERT_CONFLICT | REPLAY_BASELINE_ORDER | REPLAY_BEFORE_MISMATCH | REPLAY_DELETE_INCOMPLETE | REPLAY_PATCH_KEYS_MISMATCH
    | REPLAY_TRANSITION_INVALID | REPLAY_ROW_LIMIT | REPLAY_TOO_MANY_RECORDS

  datatype Check = Pass | Fail(code: Code)
  {
    predicate IsFailure() { Fail? }
    function PropagateFailure(): Result requires Fail? { Rejected(code) }
  }

  datatype Result = Accepted(state: State) | Rejected(code: Code)

  function Ensure(condition: bool, code: Code): Check { if condition then Pass else Fail(code) }

  function Empty(h: Header): State { State(map t | t in h.schema.projections :: map[], 0, 0, 0, false, 0) }

  predicate ShapeOk(p: Projection, row: Row, partial: bool) { row.Keys <= p.columns && (partial || row.Keys == p.columns) }

  predicate KeyFits(s: Schema, p: Projection, key: Row, row: Option<Row>) { row.Some? ==> p.keys <= row.value.Keys && KeyText(s, p, row.value) == s.text(key) }

  /** The recorded old values are what the row holds now. */
  predicate Agrees(part: Row, row: Row) { forall c :: c in part ==> c in row && row[c] == part[c] }

  function FrameProblem(h: Header, s: State, f: Frame): Check {
    if !(f.session == h.session && f.seqNo > s.last && f.seqNo <= h.high) then Fail(REPLAY_SEQUENCE_INVALID)
    else if !(f.table in h.schema.projections && f.table in s.tables) then Fail(REPLAY_TABLE_INVALID)
    else
      var p := h.schema.projections[f.table];
      if f.key.Keys != p.keys then Fail(REPLAY_FRAME_INVALID)
      else if f.before.Some? && !ShapeOk(p, f.before.value, f.kind == UPDATE) then Fail(REPLAY_BEFORE_INVALID)
      else if f.after.Some? && !ShapeOk(p, f.after.value, f.kind == UPDATE) then Fail(REPLAY_AFTER_INVALID)
      else if !KeyFits(h.schema, p, f.key, f.before) || !KeyFits(h.schema, p, f.key, f.after) then Fail(REPLAY_KEY_MISMATCH)
      else Pass
  }

  function TransitionProblem(h: Header, s: State, f: Frame): Check
    requires f.table in s.tables && f.table in h.schema.projections
  {
    var rows, key := s.tables[f.table], h.schema.text(f.key);
    if f.kind == BASELINE || f.kind == INSERT then
      if f.before.Some? || f.after.None? || key in rows then Fail(REPLAY_INSERT_CONFLICT)
      else if f.kind == BASELINE && s.started then Fail(REPLAY_BASELINE_ORDER) else Pass
    else if key !in rows || f.before.None? || !Agrees(f.before.value, rows[key]) then Fail(REPLAY_BEFORE_MISMATCH)
    else if f.kind == DELETE then
      if f.before.value.Keys != h.schema.projections[f.table].columns then Fail(REPLAY_DELETE_INCOMPLETE)
      else if f.after.Some? then Fail(REPLAY_TRANSITION_INVALID) else Pass
    else if f.after.None? || f.before.value.Keys != f.after.value.Keys then Fail(REPLAY_PATCH_KEYS_MISMATCH) else Pass
  }

  function Applied(h: Header, tables: Tables, f: Frame): Tables
    requires f.table in tables && (f.kind == UPDATE ==> h.schema.text(f.key) in tables[f.table])
  {
    var rows, key := tables[f.table], h.schema.text(f.key);
    tables[f.table := if f.after.None? then Drop(rows, key) else Put(rows, key, if f.kind == UPDATE then rows[key] + f.after.value else f.after.value)]
  }

  function Apply(h: Header, s: State, f: Frame): Result {
    var verdict := FrameProblem(h, s, f);
    :- verdict;
    :- TransitionProblem(h, s, f);
    var rowCount := if f.kind == BASELINE || f.kind == INSERT then s.rowCount + 1 else if f.kind == DELETE then s.rowCount - 1 else s.rowCount;
    :- Ensure(rowCount <= MAX_ROWS, REPLAY_ROW_LIMIT);
    :- Ensure(s.count + 1 <= h.records, REPLAY_TOO_MANY_RECORDS);
    Accepted(State(Applied(h, s.tables, f), s.count + 1, s.baseline + (if f.kind == BASELINE then 1 else 0), f.seqNo, s.started || f.kind != BASELINE, rowCount))
  }

  function ApplyAll(h: Header, frames: seq<Frame>): Result {
    if frames == [] then Accepted(Empty(h))
    else
      var before := ApplyAll(h, frames[..|frames| - 1]);
      if before.Rejected? then before else Apply(h, before.state, frames[|frames| - 1])
  }

  /** The counts that finish compares with the header. */
  predicate Complete(h: Header, s: State) { s.count == h.records && s.last == h.high && s.baseline == h.baselineRecords }

  function RowIds(tables: Tables): set<(Table, Text)> { set t, k | t in tables && k in tables[t] :: (t, k) }

  // ---------------------------------------------------------------- what an accepted frame keeps

  ghost predicate HeaderOk(h: Header) { SchemaOk(h.schema) }

  ghost predicate StateOk(h: Header, s: State) { RowsOk(h, s.tables) && s.rowCount == |RowIds(s.tables)| }

  predicate Known(h: Header, tables: Tables, f: Frame) { f.table in tables && f.table in h.schema.projections && f.key.Keys == h.schema.projections[f.table].keys }

  predicate Adds(h: Header, tables: Tables, f: Frame) {
    && Known(h, tables, f) && f.before.None? && f.after.Some? && h.schema.text(f.key) !in tables[f.table]
    && FullRow(h.schema.projections[f.table], f.after.value) && KeyOf(h.schema.projections[f.table], f.after.value) == f.key
  }

  predicate Removes(h: Header, tables: Tables, f: Frame) {
    && Known(h, tables, f) && f.after.None? && h.schema.text(f.key) in tables[f.table] && f.before == Some(tables[f.table][h.schema.text(f.key)])
    && KeyOf(h.schema.projections[f.table], f.before.value) == f.key
  }

  predicate Patches(h: Header, tables: Tables, f: Frame) {
    && Known(h, tables, f) && f.before.Some? && f.after.Some? && h.schema.text(f.key) in tables[f.table]
    && Agrees(f.before.value, tables[f.table][h.schema.text(f.key)])
    && f.before.value.Keys == f.after.value.Keys <= h.schema.projections[f.table].columns && h.schema.projections[f.table].keys <= f.after.value.Keys
    && KeyOf(h.schema.projections[f.table], f.after.value) == f.key && KeyOf(h.schema.projections[f.table], f.before.value) == f.key
  }

  lemma AcceptedFacts(h: Header, s: State, f: Frame)
    requires HeaderOk(h) && StateOk(h, s) && Apply(h, s, f).Accepted?
    ensures f.kind == BASELINE || f.kind == INSERT ==> Adds(h, s.tables, f)
    ensures f.kind == DELETE ==> Removes(h, s.tables, f)
    ensures f.kind == UPDATE ==> Patches(h, s.tables, f)
    ensures Apply(h, s, f).state.tables == Applied(h, s.tables, f)
  {
    if f.kind == DELETE {
      var row := s.tables[f.table][h.schema.text(f.key)];
      assert row.Keys == h.schema.projections[f.table].columns;
      assert row == f.before.value;
    }
  }

  /** Conversely, within the limits of the header nothing else is asked of a frame that adds, removes or patches a row. */
  lemma FactsAccept(h: Header, s: State, f: Frame)
    requires f.session == h.session && s.last < f.seqNo <= h.high && s.count < h.records && s.rowCount < MAX_ROWS + (if f.kind == DELETE || f.kind == UPDATE then 1 else 0)
    requires match f.kind
      case BASELINE => Adds(h, s.tables, f) && !s.started
      case INSERT => Adds(h, s.tables, f)
      case DELETE => Removes(h, s.tables, f) && FullRow(h.schema.projections[f.table], f.before.value)
      case UPDATE => Patches(h, s.tables, f)
    requires f.table in h.schema.projections ==> h.schema.projections[f.table].keys <= h.schema.projections[f.table].columns
    ensures Apply(h, s, f).Accepted?
    ensures Known(h, s.tables, f) && (f.kind == UPDATE ==> h.schema.text(f.key) in s.tables[f.table]) && Apply(h, s, f).state.tables == Applied(h, s.tables, f)
  {
  }

  ghost predicate RowsOk(h: Header, tables: Tables) {
    && tables.Keys == h.schema.projections.Keys
    && forall t, k :: t in tables && k in tables[t] ==> FullRow(h.schema.projections[t], tables[t][k]) && KeyText(h.schema, h.schema.projections[t], tables[t][k]) == k
  }

  lemma AddKeepsRows(h: Header, tables: Tables, f: Frame)
    requires HeaderOk(h) && RowsOk(h, tables) && Adds(h, tables, f) && f.kind != UPDATE
    ensures RowsOk(h, Applied(h, tables, f)) && |RowIds(Applied(h, tables, f))| == |RowIds(tables)| + 1
  {
    hide RowsOk, HeaderOk, KeyOf;
    AddRows(h, tables, f);
    assert RowIds(Applied(h, tables, f)) == RowIds(tables) + {(f.table, h.schema.text(f.key))};
  }

  lemma AddRows(h: Header, tables: Tables, f: Frame)
    requires RowsOk(h, tables) && Adds(h, tables, f) && f.kind != UPDATE
    ensures RowsOk(h, Applied(h, tables, f))
  {
  }

  lemma RemoveKeepsRows(h: Header, tables: Tables, f: Frame)
    requires HeaderOk(h) && RowsOk(h, tables) && Removes(h, tables, f) && f.kind != UPDATE
    ensures RowsOk(h, Applied(h, tables, f)) && |RowIds(Applied(h, tables, f))| == |RowIds(tables)| - 1
  {
    hide RowsOk, HeaderOk, KeyOf;
    RemoveRows(h, tables, f);
    assert RowIds(Applied(h, tables, f)) == RowIds(tables) - {(f.table, h.schema.text(f.key))};
  }

  lemma RemoveRows(h: Header, tables: Tables, f: Frame)
    requires RowsOk(h, tables) && Removes(h, tables, f) && f.kind != UPDATE
    ensures RowsOk(h, Applied(h, tables, f))
  {
    hide KeyText, FullRow;
  }

  lemma PatchKeepsRows(h: Header, tables: Tables, f: Frame)
    requires HeaderOk(h) && RowsOk(h, tables) && Patches(h, tables, f) && f.kind == UPDATE
    ensures RowsOk(h, Applied(h, tables, f)) && |RowIds(Applied(h, tables, f))| == |RowIds(tables)|
  {
    var p, merged := h.schema.projections[f.table], tables[f.table][h.schema.text(f.key)] + f.after.value;
    assert merged.Keys == p.columns;
    assert KeyOf(p, merged) == f.key;
    assert RowIds(Applied(h, tables, f)) == RowIds(tables);
  }

  /** Accepted frames keep every row complete and under its own key, and the row count exact. */
  lemma ApplyKeepsRows(h: Header, s: State, f: Frame)
    requires HeaderOk(h) && StateOk(h, s) && Apply(h, s, f).Accepted?
    ensures StateOk(h, Apply(h, s, f).state)
  {
    hide Adds, Removes, Patches, Applied, HeaderOk;
    AcceptedFacts(h, s, f);
    assert RowsOk(h, s.tables);
    match f.kind
    case UPDATE => PatchKeepsRows(h, s.tables, f);
    case DELETE => RemoveKeepsRows(h, s.tables, f);
    case _ => AddKeepsRows(h, s.tables, f);
  }

  /** The frame with before and after exchanged. */
  function Inverse(f: Frame, seqNo: nat): Frame {
    Frame(seqNo, f.session, f.table, f.key, if f.kind == DELETE then INSERT else if f.kind == UPDATE then UPDATE else DELETE, f.after, f.before)
  }

  /** An accepted frame is undone exactly by its exchange: it passes all checks on the new rows and restores the old ones. */
  lemma SwapUndoes(h: Header, s: State, f: Frame, seqNo: nat)
    requires HeaderOk(h) && StateOk(h, s) && Apply(h, s, f).Accepted?
    requires f.seqNo < seqNo <= h.high && s.count + 2 <= h.records && s.rowCount <= MAX_ROWS
    ensures var undone := Apply(h, Apply(h, s, f).state, Inverse(f, seqNo)); undone.Accepted? && undone.state.tables == s.tables
  {
    hide Adds, Removes, Patches, Applied, FrameProblem, TransitionProblem, RowIds;
    AcceptedFacts(h, s, f);
    var s', g := Apply(h, s, f).state, Inverse(f, seqNo);
    ApplyCounts(h, s, f);
    match f.kind
    case UPDATE => PatchSwaps(h, s.tables, f, g); FactsAccept(h, s', g);
    case DELETE => RemoveSwaps(h, s.tables, f, g); FactsAccept(h, s', g);
    case _ => AddSwaps(h, s.tables, f, g); FactsAccept(h, s', g);
  }

  lemma ApplyCounts(h: Header, s: State, f: Frame)
    requires Apply(h, s, f).Accepted?
    ensures var s' := Apply(h, s, f).state;
      && s'.count == s.count + 1 && s'.last == f.seqNo && f.session == h.session
      && s'.rowCount == s.rowCount + (if f.kind == DELETE then -1 else if f.kind == UPDATE then 0 else 1) && s'.rowCount <= MAX_ROWS
  {
  }

  lemma AddSwaps(h: Header, tables: Tables, f: Frame, g: Frame)
    requires Adds(h, tables, f) && f.kind != UPDATE && g == Inverse(f, g.seqNo) && f.kind != DELETE
    ensures var tables' := Applied(h, tables, f); Removes(h, tables', g) && Applied(h, tables', g) == tables && FullRow(h.schema.projections[g.table], g.before.value)
  {
    assert tables[f.table][h.schema.text(f.key) := f.after.value] - {h.schema.text(f.key)} == tables[f.table];
    assert tables[f.table := tables[f.table]] == tables;
  }

  lemma RemoveSwaps(h: Header, tables: Tables, f: Frame, g: Frame)
    requires RowsOk(h, tables) && Removes(h, tables, f) && f.kind == DELETE && g == Inverse(f, g.seqNo)
    ensures var tables' := Applied(h, tables, f); Adds(h, tables', g) && Applied(h, tables', g) == tables
  {
    assert (tables[f.table] - {h.schema.text(f.key)})[h.schema.text(f.key) := f.before.value] == tables[f.table];
    assert tables[f.table := tables[f.table]] == tables;
  }

  lemma PatchSwaps(h: Header, tables: Tables, f: Frame, g: Frame)
    requires Patches(h, tables, f) && f.kind == UPDATE && g == Inverse(f, g.seqNo)
    ensures var tables' := Applied(h, tables, f); Patches(h, tables', g) && Applied(h, tables', g) == tables
  {
    var key := h.schema.text(f.key);
    var row := tables[f.table][key];
    var merged := row + f.after.value;
    assert merged + f.before.value == row;
    assert tables[f.table][key := merged][key := row] == tables[f.table];
    assert tables[f.table := tables[f.table]] == tables;
  }

  // ---------------------------------------------------------------- the object

  class Replay {
    const header: Header
    var tables: Tables
    var count: nat
    var baseline: nat
    var last: nat
    var started: bool
    var rowCount: int

    function Now(): State
      reads this
    {
      State(tables, count, baseline, last, started, rowCount)
    }

    constructor (h: Header)
      ensures header == h && Now() == Empty(h)
    {
      header := h;
      tables := map t | t in h.schema.projections :: map[];
      count, baseline, last, started, rowCount := 0, 0, 0, false, 0;
    }

    /** A rejected frame ends the replay, so nothing is said of the object afterwards. */
    method ApplyFrame(f: Frame) returns (r: Check)
      modifies this
      ensures match Apply(header, old(Now()), f)
        case Accepted(s) => r.Pass? && Now() == s
        case Rejected(code) => r == Fail(code)
    {
      hide Agrees, KeyFits, ShapeOk;
      r := FrameProblem(header, Now(), f);
      if r.Fail? { return; }
      var p, rows := header.schema.projections[f.table], tables[f.table];
      var before, after, key := f.before, f.after, header.schema.text(f.key);
      if f.kind == BASELINE || f.kind == INSERT {
        if before.Some? || after.None? || key in rows { return Fail(REPLAY_INSERT_CONFLICT); }
        if f.kind == BASELINE {
          if started { return Fail(REPLAY_BASELINE_ORDER); }
          baseline := baseline + 1;
        } else {
          started := true;
        }
      } else {
        started := true;
        if key !in rows || before.None? || !Agrees(before.value, rows[key]) { return Fail(REPLAY_BEFORE_MISMATCH); }
        if f.kind == DELETE {
          if before.value.Keys != p.columns { return Fail(REPLAY_DELETE_INCOMPLETE); }
          if after.Some? { return Fail(REPLAY_TRANSITION_INVALID); }
        } else if after.None? || before.value.Keys != after.value.Keys {
          return Fail(REPLAY_PATCH_KEYS_MISMATCH);
        }
      }
      if key !in rows && after.Some? { rowCount := rowCount + 1; } else if key in rows && after.None? { rowCount := rowCount - 1; }
      if rowCount > MAX_ROWS { return Fail(REPLAY_ROW_LIMIT); }
      if after.Some? {
        rows := Put(rows, key, if f.kind == UPDATE then rows[key] + after.value else after.value);
      } else {
        rows := Drop(rows, key);
      }
      tables := tables[f.table := rows];
      last := f.seqNo;
      count := count + 1;
      if count > header.records { return Fail(REPLAY_TOO_MANY_RECORDS); }
    }
  }
}
