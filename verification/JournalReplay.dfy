/** The replay of a session's frames ends at exactly the session's rows, whatever the statements were. */
module JournalReplay {
  import opened Wrappers
  import opened Journal
  import opened JournalScopes
  import opened Replay

  /** The header fits the schema and leaves room for the frames. */
  ghost predicate Fits(h: Header, s: Schema, frames: seq<Frame>) {
    SchemaOk(s) && h.schema == s && h.high >= |frames| && h.records >= |Of(frames, h.session)|
  }

  /** The replay of these frames was accepted and holds these rows. */
  ghost predicate Holds(h: Header, frames: seq<Frame>, tables: Tables) {
    var out := ApplyAll(h, Of(frames, h.session));
    && out.Accepted? && out.state.tables == tables && StateOk(h, out.state)
    && out.state.count == |Of(frames, h.session)| && out.state.last <= |frames|
  }

  predicate Small(tables: Tables) { |RowIds(tables)| <= MAX_ROWS }

  // ---------------------------------------------------------------- lists of frames

  lemma OfLonger(frames: seq<Frame>, f: Frame, sid: SessionId)
    ensures Of(frames + [f], sid) == Of(frames, sid) + (if f.session == sid then [f] else [])
  {
    assert (frames + [f])[..|frames|] == frames;
  }

  lemma ApplyLonger(h: Header, frames: seq<Frame>, f: Frame)
    ensures ApplyAll(h, frames + [f]) == (var before := ApplyAll(h, frames); if before.Rejected? then before else Apply(h, before.state, f))
  {
    assert (frames + [f])[..|frames|] == frames;
  }

  /** A frame of another session passes the replay by. */
  lemma Foreign(h: Header, frames: seq<Frame>, f: Frame, tables: Tables)
    requires Holds(h, frames, tables) && f.session != h.session
    ensures Holds(h, frames + [f], tables)
  {
    OfLonger(frames, f, h.session);
    assert Of(frames + [f], h.session) == Of(frames, h.session);
  }

  /** One more frame of the session that adds, removes or patches a row of the present tables. */
  lemma OneMore(h: Header, frames: seq<Frame>, f: Frame, tables: Tables)
    requires HeaderOk(h) && Holds(h, frames, tables) && f.session == h.session && f.seqNo == |frames| + 1 && f.seqNo <= h.high
    requires |Of(frames, h.session)| < h.records
    requires match f.kind
      case BASELINE => Adds(h, tables, f) && Small(Applied(h, tables, f)) && !ApplyAll(h, Of(frames, h.session)).state.started
      case INSERT => Adds(h, tables, f) && Small(Applied(h, tables, f))
      case DELETE => Removes(h, tables, f) && Small(tables)
      case UPDATE => Patches(h, tables, f) && Small(tables)
    ensures Known(h, tables, f) && (f.kind == UPDATE ==> h.schema.text(f.key) in tables[f.table]) && Holds(h, frames + [f], Applied(h, tables, f))
    ensures ApplyAll(h, Of(frames + [f], h.session)).state.started == (ApplyAll(h, Of(frames, h.session)).state.started || f.kind != BASELINE)
    ensures ApplyAll(h, Of(frames + [f], h.session)).state.baseline == ApplyAll(h, Of(frames, h.session)).state.baseline + (if f.kind == BASELINE then 1 else 0)
    ensures ApplyAll(h, Of(frames + [f], h.session)).state.last == f.seqNo
  {
    hide Adds, Removes, Patches, Applied, FrameProblem, TransitionProblem, HeaderOk;
    OfLonger(frames, f, h.session);
    ApplyLonger(h, Of(frames, h.session), f);
    var st := ApplyAll(h, Of(frames, h.session)).state;
    Room(h, tables, f);
    FactsAccept(h, st, f);
    ApplyKeepsRows(h, st, f);
    assert ApplyAll(h, Of(frames + [f], h.session)) == Apply(h, st, f);
    assert Apply(h, st, f).state.tables == Applied(h, tables, f);
  }

  lemma Room(h: Header, tables: Tables, f: Frame)
    requires HeaderOk(h) && RowsOk(h, tables)
    requires match f.kind
      case BASELINE => Adds(h, tables, f) && Small(Applied(h, tables, f))
      case INSERT => Adds(h, tables, f) && Small(Applied(h, tables, f))
      case DELETE => Removes(h, tables, f) && Small(tables)
      case UPDATE => Patches(h, tables, f) && Small(tables)
    ensures |RowIds(tables)| < MAX_ROWS + (if f.kind == DELETE || f.kind == UPDATE then 1 else 0)
    ensures f.kind == DELETE ==> FullRow(h.schema.projections[f.table], f.before.value)
    ensures f.table in h.schema.projections && h.schema.projections[f.table].keys <= h.schema.projections[f.table].columns
  {
    if f.kind == BASELINE || f.kind == INSERT { AddKeepsRows(h, tables, f); }
  }

  // ---------------------------------------------------------------- one statement

  /** What the step does to the session's rows. */
  lemma ViewOk(s: Schema, h: Header, at: Tables, db: Tables, sid: SessionId)
    requires SchemaOk(s) && TablesOk(s, db) && h.schema == s
    ensures HeaderOk(h) && RowsOk(h, View(s, at, db, sid))
  {
  }

  lemma StepKeepsTables(s: Schema, db: Tables, op: Op)
    requires SchemaOk(s) && TablesOk(s, db)
    ensures TablesOk(s, Step(s, db, op))
  {
    hide SchemaOk, Session, FullRow;
    if Allowed(s, db, op) {
      var t, after := op.table, Changed(s, db, op);
      forall u, k | u in after && k in after[u] && u != t ensures FullRow(s.projections[u], after[u][k]) && KeyText(s, s.projections[u], after[u][k]) == k { StoredRow(s, db, u, k); }
      forall k | k in after[t] ensures FullRow(s.projections[t], after[t][k]) && KeyText(s, s.projections[t], after[t][k]) == k {
        if k in db[t] && after[t][k] == db[t][k] { StoredRow(s, db, t, k); }
      }
    }
  }

  /** Only the view of table t changes with it. */
  lemma ViewWith(s: Schema, at: Tables, db: Tables, t: Table, rows: map<Text, Row>, sid: SessionId)
    requires t in db && t in s.projections
    ensures View(s, at, db[t := rows], sid) == View(s, at, db, sid)[t := Mine(s, at, t, rows, sid)]
    ensures t in View(s, at, db, sid) && View(s, at, db, sid)[t] == Mine(s, at, t, db[t], sid)
    ensures View(s, at, db, sid)[t := Mine(s, at, t, db[t], sid)] == View(s, at, db, sid)
  {
    hide Mine;
  }

  lemma MinePut(s: Schema, at: Tables, t: Table, rows: map<Text, Row>, key: Text, row: Row, sid: SessionId)
    requires t in s.projections && (key in rows ==> Session(s, at, t, rows[key]) == Session(s, at, t, row))
    ensures Mine(s, at, t, Put(rows, key, row), sid) == if Session(s, at, t, row) == Some(sid) then Put(Mine(s, at, t, rows, sid), key, row) else Mine(s, at, t, rows, sid)
  {
    hide Session;
  }

  lemma MineDrop(s: Schema, at: Tables, t: Table, rows: map<Text, Row>, key: Text, sid: SessionId)
    requires t in s.projections && key in rows
    ensures Mine(s, at, t, Drop(rows, key), sid) == if Session(s, at, t, rows[key]) == Some(sid) then Drop(Mine(s, at, t, rows, sid), key) else Mine(s, at, t, rows, sid)
    ensures key in Mine(s, at, t, rows, sid) <==> Session(s, at, t, rows[key]) == Some(sid)
    ensures Session(s, at, t, rows[key]) == Some(sid) ==> Mine(s, at, t, rows, sid)[key] == rows[key]
  {
    hide Session;
  }

  lemma InsertShows(s: Schema, h: Header, at: Tables, db: Tables, t: Table, row: Row, f: Frame)
    requires SchemaOk(s) && TablesOk(s, db) && h.schema == s && t in s.projections && t in db && FullRow(s.projections[t], row) && KeyText(s, s.projections[t], row) !in db[t]
    requires Session(s, at, t, row) == Some(f.session) && f == Frame(f.seqNo, f.session, t, KeyOf(s.projections[t], row), INSERT, None, Some(row))
    ensures var db' := db[t := Put(db[t], KeyText(s, s.projections[t], row), row)];
      && (f.session == h.session ==> Adds(h, View(s, at, db, h.session), f) && Applied(h, View(s, at, db, h.session), f) == View(s, at, db', h.session))
      && (f.session != h.session ==> View(s, at, db', h.session) == View(s, at, db, h.session))
  {
    hide View, Put, TablesOk, SchemaOk, Session;
    var key := KeyText(s, s.projections[t], row);
    KeyIsWhole(s, t, row);
    ViewWith(s, at, db, t, Put(db[t], key, row), h.session);
    MinePut(s, at, t, db[t], key, row, h.session);
  }

  lemma KeyIsWhole(s: Schema, t: Table, row: Row)
    requires SchemaOk(s) && t in s.projections && FullRow(s.projections[t], row)
    ensures KeyOf(s.projections[t], row).Keys == s.projections[t].keys
  {
  }

  lemma StoredRow(s: Schema, db: Tables, t: Table, key: Text)
    requires TablesOk(s, db) && t in s.projections && t in db && key in db[t]
    ensures FullRow(s.projections[t], db[t][key]) && KeyText(s, s.projections[t], db[t][key]) == key
  {
  }

  lemma DeleteShows(s: Schema, h: Header, at: Tables, db: Tables, t: Table, key: Text, f: Frame)
    requires SchemaOk(s) && TablesOk(s, db) && h.schema == s && t in s.projections && t in db && key in db[t]
    requires Session(s, at, t, db[t][key]) == Some(f.session) && f == Frame(f.seqNo, f.session, t, KeyOf(s.projections[t], db[t][key]), DELETE, Some(db[t][key]), None)
    ensures var db' := db[t := Drop(db[t], key)];
      && (f.session == h.session ==> Removes(h, View(s, at, db, h.session), f) && Applied(h, View(s, at, db, h.session), f) == View(s, at, db', h.session))
      && (f.session != h.session ==> View(s, at, db', h.session) == View(s, at, db, h.session))
  {
    hide View, Drop, TablesOk, SchemaOk, Mine, Session;
    StoredRow(s, db, t, key);
    KeyIsWhole(s, t, db[t][key]);
    ViewWith(s, at, db, t, Drop(db[t], key), h.session);
    MineDrop(s, at, t, db[t], key, h.session);
  }

  lemma UpdateShows(s: Schema, h: Header, at: Tables, db: Tables, t: Table, key: Text, row: Row, f: Frame)
    requires SchemaOk(s) && TablesOk(s, db) && h.schema == s && t in s.projections && t in db && key in db[t] && FullRow(s.projections[t], row)
    requires KeyText(s, s.projections[t], row) == key && Session(s, at, t, db[t][key]) == Session(s, at, t, row) == Some(f.session)
    requires var p, was := s.projections[t], db[t][key];
      f == Frame(f.seqNo, f.session, t, KeyOf(p, row), UPDATE, Some(Delta(p, was, row, was)), Some(Delta(p, was, row, row)))
    ensures var db' := db[t := Put(Drop(db[t], key), key, row)];
      && (f.session == h.session ==> Patches(h, View(s, at, db, h.session), f) && Applied(h, View(s, at, db, h.session), f) == View(s, at, db', h.session))
      && (f.session != h.session ==> View(s, at, db', h.session) == View(s, at, db, h.session))
  {
    hide View, Drop, Put, TablesOk, SchemaOk, Mine, Delta, Agrees, Session;
    var p, was := s.projections[t], db[t][key];
    StoredRow(s, db, t, key);
    KeyIsWhole(s, t, row);
    SameKey(s, p, was, row);
    DeltaPatches(p, was, row, f.key);
    Replaced(db[t], key, row);
    ViewWith(s, at, db, t, Put(db[t], key, row), h.session);
    MinePut(s, at, t, db[t], key, row, h.session);
    MineDrop(s, at, t, db[t], key, h.session);
  }

  lemma SameKey(s: Schema, p: Projection, was: Row, row: Row)
    requires SchemaOk(s) && KeyText(s, p, was) == KeyText(s, p, row)
    ensures KeyOf(p, was) == KeyOf(p, row)
    ensures p in s.projections.Values ==> p.keys <= p.columns
  {
  }

  lemma Replaced(rows: map<Text, Row>, key: Text, row: Row)
    ensures Put(Drop(rows, key), key, row) == Put(rows, key, row)
  {
  }

  /** The changed columns and the key turn the old row into the new one. */
  lemma DeltaPatches(p: Projection, was: Row, now: Row, key: Row)
    requires p.keys <= p.columns && FullRow(p, was) && FullRow(p, now) && KeyOf(p, was) == key && KeyOf(p, now) == key
    ensures var before, after := Delta(p, was, now, was), Delta(p, was, now, now);
      && before.Keys == after.Keys <= p.columns && p.keys <= after.Keys && KeyOf(p, before) == key && KeyOf(p, after) == key
      && Agrees(before, was) && was + after == now
  {
    var before, after := Delta(p, was, now, was), Delta(p, was, now, now);
    forall c | c in p.columns && c !in after ensures was[c] == now[c] {}
    assert (was + after).Keys == now.Keys;
    assert KeyOf(p, before) == key;
    assert KeyOf(p, after) == key;
  }

  /** The frames of one statement take the session's rows from before the statement to after it, unless the statement strands rows. */
  lemma StatementReplays(h: Header, s: Schema, frames: seq<Frame>, db: Tables, op: Op)
    requires TablesOk(s, db) && Scoped(s, db) && !Strands(s, db, op)
    requires Holds(h, frames, View(s, db, db, h.session)) && Small(View(s, db, db, h.session)) && Fits(h, s, frames + Emit(s, db, op, |frames| + 1))
    requires Small(View(s, Step(s, db, op), Step(s, db, op), h.session))
    ensures Holds(h, frames + Emit(s, db, op, |frames| + 1), View(s, Step(s, db, op), Step(s, db, op), h.session))
    ensures Baselines(h, frames + Emit(s, db, op, |frames| + 1)) == Baselines(h, frames)
  {
    hide Holds, Adds, Removes, Patches, Applied, View, Small, HeaderOk, TablesOk, FullRow, Strands, Fits, SchemaOk, Baselines;
    var emitted, after := Emit(s, db, op, |frames| + 1), Step(s, db, op);
    FitsFacts(h, s, frames, emitted);
    if emitted == [] {
      assert frames + emitted == frames;
      SilentSteps(s, db, op, h.session);
    } else {
      Rebased(s, db, op, h.session);
      if |emitted| == 1 {
        assert frames + emitted == frames + [emitted[0]];
        SingleReplays(h, s, frames, db, op);
      } else {
        MoveReplays(h, s, frames, db, op);
      }
    }
  }

  /** Rows that stay, and the row that goes, have the same session before and after. */
  lemma Rebased(s: Schema, db: Tables, op: Op, sid: SessionId)
    requires SchemaOk(s) && TablesOk(s, db) && Scoped(s, db) && Allowed(s, db, op) && !Strands(s, db, op)
    ensures View(s, Step(s, db, op), db, sid) == View(s, db, db, sid)
  {
    hide SchemaOk, TablesOk, Strands, Session, Allowed, Step, Scoped;
    var after := Step(s, db, op);
    forall t | t in db && t in s.projections ensures Mine(s, after, t, db[t], sid) == Mine(s, db, t, db[t], sid) {
      forall k | k in db[t] ensures Session(s, after, t, db[t][k]) == Session(s, db, t, db[t][k]) { OthersStay(s, db, op, t, k); }
    }
  }

  ghost function Baselines(h: Header, frames: seq<Frame>): nat {
    var out := ApplyAll(h, Of(frames, h.session));
    if out.Accepted? then out.state.baseline else 0
  }

  lemma FitsFacts(h: Header, s: Schema, frames: seq<Frame>, emitted: seq<Frame>)
    requires Fits(h, s, frames + emitted)
    ensures SchemaOk(s) && h.schema == s && |frames + emitted| <= h.high
    ensures emitted != [] && emitted[0].session == h.session ==> |Of(frames, h.session)| < h.records
    ensures |emitted| == 2 && emitted[1].session == h.session ==> |Of(frames + [emitted[0]], h.session)| < h.records
  {
    if |emitted| == 1 {
      assert frames + emitted == frames + [emitted[0]];
      OfLonger(frames, emitted[0], h.session);
    } else if |emitted| >= 2 {
      OfOnlyGrows(frames + [emitted[0]], emitted[1..], h.session);
      assert frames + emitted == (frames + [emitted[0]]) + emitted[1..];
      OfLonger(frames, emitted[0], h.session);
      if |emitted| == 2 {
        assert frames + emitted == (frames + [emitted[0]]) + [emitted[1]];
        OfLonger(frames + [emitted[0]], emitted[1], h.session);
      }
    }
  }

  lemma {:induction false} OfOnlyGrows(frames: seq<Frame>, more: seq<Frame>, sid: SessionId)
    ensures |Of(frames, sid)| <= |Of(frames + more, sid)|
    decreases |more|
  {
    if more == [] {
      assert frames + more == frames;
    } else {
      var k := |more| - 1;
      OfOnlyGrows(frames, more[..k], sid);
      assert frames + more == (frames + more[..k]) + [more[k]];
      OfLonger(frames + more[..k], more[k], sid);
    }
  }

  lemma SilentSteps(s: Schema, db: Tables, op: Op, sid: SessionId)
    requires TablesOk(s, db) && Emit(s, db, op, 1) == []
    ensures Step(s, db, op) == db
  {
    hide Session;
    if Allowed(s, db, op) {
      assert Put(Drop(db[op.table], op.key), KeyText(s, s.projections[op.table], op.row), op.row) == db[op.table];
    }
  }

  /** One frame that is not part of the baseline, with what it does to the session's rows. */
  lemma FrameReplays(h: Header, frames: seq<Frame>, f: Frame, view: Tables, view': Tables)
    requires HeaderOk(h) && Holds(h, frames, view) && Small(view) && Small(view') && f.seqNo == |frames| + 1 <= h.high
    requires f.session == h.session ==> |Of(frames, h.session)| < h.records
    requires f.session != h.session ==> view' == view
    requires f.session == h.session ==>
      match f.kind
      case BASELINE => false
      case INSERT => Adds(h, view, f) && Applied(h, view, f) == view'
      case DELETE => Removes(h, view, f) && Applied(h, view, f) == view'
      case UPDATE => Patches(h, view, f) && Applied(h, view, f) == view'
    ensures Holds(h, frames + [f], view') && Baselines(h, frames + [f]) == Baselines(h, frames)
  {
    hide Adds, Removes, Patches, Applied, Small, StateOk, HeaderOk;
    if f.session == h.session {
      OneMore(h, frames, f, view);
    } else {
      Foreign(h, frames, f, view);
      OfLonger(frames, f, h.session);
      assert Of(frames + [f], h.session) == Of(frames, h.session);
    }
  }

  lemma SingleReplays(h: Header, s: Schema, frames: seq<Frame>, db: Tables, op: Op)
    requires SchemaOk(s) && h.schema == s && TablesOk(s, db) && Scoped(s, db) && |Emit(s, db, op, |frames| + 1)| == 1 && |frames| + 1 <= h.high
    requires var view, view' := View(s, Step(s, db, op), db, h.session), View(s, Step(s, db, op), Step(s, db, op), h.session);
      Holds(h, frames, view) && Small(view) && Small(view')
    requires Emit(s, db, op, |frames| + 1)[0].session == h.session ==> |Of(frames, h.session)| < h.records
    ensures Holds(h, frames + [Emit(s, db, op, |frames| + 1)[0]], View(s, Step(s, db, op), Step(s, db, op), h.session))
    ensures Baselines(h, frames + [Emit(s, db, op, |frames| + 1)[0]]) == Baselines(h, frames)
  {
    hide Adds, Removes, Patches, Applied, View, Small, Holds, Baselines, SchemaOk, TablesOk, FullRow, Delta, Session, Scoped;
    var f, after := Emit(s, db, op, |frames| + 1)[0], Step(s, db, op);
    ViewOk(s, h, after, db, h.session);
    match op {
      case Insert(t, row) => InsertShows(s, h, after, db, t, row, f);
      case Delete(t, key) => DeleteShows(s, h, after, db, t, key, f);
      case Update(t, key, row) =>
        LeavesASession(s, db, op);
        UpdateShows(s, h, after, db, t, key, row, f);
    }
    FrameReplays(h, frames, f, View(s, after, db, h.session), View(s, after, after, h.session));
  }

  /** The row that is updated had a session, and still has when the triggers run. */
  lemma LeavesASession(s: Schema, db: Tables, op: Op)
    requires SchemaOk(s) && Scoped(s, db) && Shaped(s, db, op) && !op.Insert?
    ensures Session(s, Changed(s, db, op), op.table, db[op.table][op.key]).Some?
  {
    hide SchemaOk, Session;
    OwnScope(s, db, op.table, db[op.table][op.key], Changed(s, db, op)[op.table]);
  }

  /** A new key or a new session: the row leaves where it was and appears where it is now. */
  lemma MoveReplays(h: Header, s: Schema, frames: seq<Frame>, db: Tables, op: Op)
    requires SchemaOk(s) && h.schema == s && TablesOk(s, db) && |Emit(s, db, op, |frames| + 1)| == 2 && |frames| + 2 <= h.high
    requires var view, view' := View(s, Step(s, db, op), db, h.session), View(s, Step(s, db, op), Step(s, db, op), h.session);
      Holds(h, frames, view) && Small(view) && Small(view')
    requires var e := Emit(s, db, op, |frames| + 1);
      (e[0].session == h.session ==> |Of(frames, h.session)| < h.records) && (e[1].session == h.session ==> |Of(frames + [e[0]], h.session)| < h.records)
    ensures Holds(h, frames + Emit(s, db, op, |frames| + 1), View(s, Step(s, db, op), Step(s, db, op), h.session))
    ensures Baselines(h, frames + Emit(s, db, op, |frames| + 1)) == Baselines(h, frames)
  {
    hide Adds, Removes, Patches, Applied, View, Small, StateOk, SchemaOk, FullRow, Delta, Holds, Baselines, TablesOk, Session;
    var e, after := Emit(s, db, op, |frames| + 1), Step(s, db, op);
    var t, key := op.table, op.key;
    var mid := db[t := Drop(db[t], key)];
    ViewOk(s, h, after, db, h.session);
    DropKeepsTables(s, db, t, key);
    ShrinksView(s, after, db, t, key, h.session);
    DeleteShows(s, h, after, db, t, key, e[0]);
    FrameReplays(h, frames, e[0], View(s, after, db, h.session), View(s, after, mid, h.session));
    MovesTo(s, db, op);
    InsertShows(s, h, after, mid, t, op.row, e[1]);
    FrameReplays(h, frames + [e[0]], e[1], View(s, after, mid, h.session), View(s, after, after, h.session));
    assert frames + e == frames + [e[0]] + [e[1]];
  }

  lemma DropKeepsTables(s: Schema, db: Tables, t: Table, key: Text)
    requires TablesOk(s, db) && t in db
    ensures TablesOk(s, db[t := Drop(db[t], key)])
  {
  }

  lemma MovesTo(s: Schema, db: Tables, op: Op)
    requires Shaped(s, db, op) && op.Update?
    ensures var mid := db[op.table := Drop(db[op.table], op.key)];
      FullRow(s.projections[op.table], op.row) && KeyText(s, s.projections[op.table], op.row) !in mid[op.table] &&
      mid[op.table := Put(mid[op.table], KeyText(s, s.projections[op.table], op.row), op.row)] == Changed(s, db, op)
  {
  }

  lemma ShrinksView(s: Schema, at: Tables, db: Tables, t: Table, key: Text, sid: SessionId)
    requires t in db && Small(View(s, at, db, sid))
    ensures Small(View(s, at, db[t := Drop(db[t], key)], sid))
  {
    hide Session;
    Subset(RowIds(View(s, at, db[t := Drop(db[t], key)], sid)), RowIds(View(s, at, db, sid)));
  }

  lemma Subset(small: set<(Table, Text)>, large: set<(Table, Text)>)
    requires small <= large
    ensures |small| <= |large|
  {
    assert large == small + (large - small);
  }

  // ---------------------------------------------------------------- the baseline

  /** The listing names every row once. */
  ghost predicate Lists(db: Tables, listing: seq<(Table, Text)>) {
    && (forall e :: e in listing ==> e.0 in db && e.1 in db[e.0])
    && (forall t, k :: t in db && k in db[t] ==> (t, k) in listing)
    && (forall i, j :: 0 <= i < j < |listing| ==> listing[i] != listing[j])
  }

  function Restricted(db: Tables, listing: seq<(Table, Text)>): Tables {
    map t | t in db :: map k | k in db[t] && (t, k) in listing :: db[t][k]
  }

  lemma RestrictedGrows(db: Tables, listing: seq<(Table, Text)>, n: nat)
    requires n < |listing| && listing[n].0 in db && listing[n].1 in db[listing[n].0]
    ensures var t, k := listing[n].0, listing[n].1;
      var before := Restricted(db, listing[..n]);
      t in before && Restricted(db, listing[..n + 1]) == before[t := Put(before[t], k, db[t][k])]
  {
    var t, k := listing[n].0, listing[n].1;
    var before, after := Restricted(db, listing[..n]), Restricted(db, listing[..n + 1]);
    assert listing[..n + 1] == listing[..n] + [listing[n]];
    assert after[t] == Put(before[t], k, db[t][k]);
    forall x | x in db && x != t ensures after[x] == before[x] {}
  }

  lemma RestrictedOk(s: Schema, db: Tables, listing: seq<(Table, Text)>, sid: SessionId)
    requires TablesOk(s, db) && Small(View(s, db, db, sid))
    ensures TablesOk(s, Restricted(db, listing)) && Small(View(s, db, Restricted(db, listing), sid))
  {
    hide Session;
    var part := Restricted(db, listing);
    forall t, k | t in part && k in part[t] ensures FullRow(s.projections[t], part[t][k]) && KeyText(s, s.projections[t], part[t][k]) == k { StoredRow(s, db, t, k); }
    assert RowIds(View(s, db, part, sid)) <= RowIds(View(s, db, db, sid));
    Subset(RowIds(View(s, db, part, sid)), RowIds(View(s, db, db, sid)));
  }

  lemma {:induction false} BaselineReplays(h: Header, s: Schema, db: Tables, listing: seq<(Table, Text)>, n: nat)
    requires TablesOk(s, db) && Scoped(s, db) && Lists(db, listing) && n <= |listing| && Small(View(s, db, db, h.session))
    requires Fits(h, s, Baseline(s, db, listing))
    ensures Holds(h, Baseline(s, db, listing)[..n], View(s, db, Restricted(db, listing[..n]), h.session))
    ensures Baselines(h, Baseline(s, db, listing)[..n]) == |Of(Baseline(s, db, listing)[..n], h.session)|
    ensures var out := ApplyAll(h, Of(Baseline(s, db, listing)[..n], h.session)); out.Accepted? && !out.state.started
  {
    hide Adds, Applied, View, Restricted, TablesOk, Scoped, FullRow, Small, Session, Holds, Baselines, SchemaOk, ApplyAll;
    var frames := Baseline(s, db, listing);
    if n == 0 {
      EmptyHolds(h, s, db);
      assert frames[..0] == [] && listing[..0] == [];
    } else {
      var k := n - 1;
      BaselineReplays(h, s, db, listing, k);
      assert frames[..n] == frames[..k] + [frames[k]];
      FitsPrefix(h, s, frames, k);
      BaselineRow(h, s, db, listing, k);
      BaselineFrame(h, frames[..k], frames[k], View(s, db, Restricted(db, listing[..k]), h.session), View(s, db, Restricted(db, listing[..n]), h.session));
    }
  }

  /** One frame of the baseline. */
  lemma BaselineFrame(h: Header, frames: seq<Frame>, f: Frame, view: Tables, view': Tables)
    requires HeaderOk(h) && Holds(h, frames, view) && f.kind == BASELINE && f.seqNo == |frames| + 1 <= h.high
    requires var out := ApplyAll(h, Of(frames, h.session)); out.Accepted? && !out.state.started && Baselines(h, frames) == |Of(frames, h.session)|
    requires f.session == h.session ==> |Of(frames, h.session)| < h.records && Adds(h, view, f) && Applied(h, view, f) == view' && Small(view')
    requires f.session != h.session ==> view' == view
    ensures Holds(h, frames + [f], view') && Baselines(h, frames + [f]) == |Of(frames + [f], h.session)|
    ensures ApplyAll(h, Of(frames + [f], h.session)).Accepted? && !ApplyAll(h, Of(frames + [f], h.session)).state.started
  {
    hide Adds, Applied, Small, StateOk, HeaderOk, ApplyAll;
    OfLonger(frames, f, h.session);
    if f.session == h.session {
      OneMore(h, frames, f, view);
    } else {
      Foreign(h, frames, f, view);
      assert Of(frames + [f], h.session) == Of(frames, h.session);
    }
  }

  lemma FitsPrefix(h: Header, s: Schema, frames: seq<Frame>, k: nat)
    requires Fits(h, s, frames) && k < |frames|
    ensures HeaderOk(h) && k + 1 <= h.high && (frames[k].session == h.session ==> |Of(frames[..k], h.session)| < h.records)
  {
    assert frames == (frames[..k] + [frames[k]]) + frames[k + 1..];
    OfOnlyGrows(frames[..k] + [frames[k]], frames[k + 1..], h.session);
    OfLonger(frames[..k], frames[k], h.session);
  }

  lemma EmptyHolds(h: Header, s: Schema, db: Tables)
    requires h.schema == s && TablesOk(s, db)
    ensures Holds(h, [], View(s, db, Restricted(db, []), h.session)) && Baselines(h, []) == 0
    ensures var out := ApplyAll(h, Of([], h.session)); out.Accepted? && !out.state.started
  {
    var none := View(s, db, Restricted(db, []), h.session);
    assert none == Empty(h).tables;
    assert RowIds(none) == {};
  }

  lemma BaselineRow(h: Header, s: Schema, db: Tables, listing: seq<(Table, Text)>, k: nat)
    requires SchemaOk(s) && h.schema == s && TablesOk(s, db) && Scoped(s, db) && Lists(db, listing) && k < |listing| && Small(View(s, db, db, h.session))
    ensures var f, view, view' := Baseline(s, db, listing)[k], View(s, db, Restricted(db, listing[..k]), h.session), View(s, db, Restricted(db, listing[..k + 1]), h.session);
      && f.kind == BASELINE && f.seqNo == k + 1
      && (f.session == h.session ==> Adds(h, view, f) && Applied(h, view, f) == view' && Small(view'))
      && (f.session != h.session ==> view' == view)
  {
    hide View, TablesOk, SchemaOk, Small, Put, Session;
    var t, key := listing[k].0, listing[k].1;
    assert listing[k] in listing;
    var row := db[t][key];
    var before := Restricted(db, listing[..k]);
    RestrictedGrows(db, listing, k);
    RestrictedOk(s, db, listing[..k], h.session);
    RestrictedOk(s, db, listing[..k + 1], h.session);
    StoredRow(s, db, t, key);
    assert key !in before[t];
    InsertShows(s, h, db, before, t, row, Frame(k + 1, Session(s, db, t, row).value, t, KeyOf(s.projections[t], row), INSERT, None, Some(row)));
  }

  lemma EverythingListed(db: Tables, listing: seq<(Table, Text)>)
    requires Lists(db, listing)
    ensures Restricted(db, listing) == db
  {
    forall t | t in db ensures Restricted(db, listing)[t] == db[t] {}
  }

  // ---------------------------------------------------------------- whole histories

  /** The session never has more rows than a replay admits, at the baseline and after every statement. */
  ghost predicate StaysSmall(s: Schema, db: Tables, ops: seq<Op>, sid: SessionId) {
    forall n :: 0 <= n <= |ops| ==> Small(View(s, Store(s, db, ops[..n]), Store(s, db, ops[..n]), sid))
  }

  /** No statement takes the session away under rows that it does not touch. */
  ghost predicate NoneStranded(s: Schema, db: Tables, ops: seq<Op>) { forall n :: 0 <= n < |ops| ==> !Strands(s, Store(s, db, ops[..n]), ops[n]) }

  lemma {:induction false} HistoryReplays(h: Header, s: Schema, db: Tables, listing: seq<(Table, Text)>, ops: seq<Op>)
    requires TablesOk(s, db) && Scoped(s, db) && Lists(db, listing) && StaysSmall(s, db, ops, h.session) && NoneStranded(s, db, ops)
    requires Fits(h, s, Journaled(s, db, listing, ops))
    ensures var now := Store(s, db, ops);
      TablesOk(s, now) && Scoped(s, now) && Holds(h, Journaled(s, db, listing, ops), View(s, now, now, h.session))
    ensures Baselines(h, Journaled(s, db, listing, ops)) == |Of(Baseline(s, db, listing), h.session)|
  {
    hide TablesOk, Scoped, Small, View, Holds, Emit, Step, Strands;
    if ops == [] {
      assert ops[..0] == ops;
      assert Small(View(s, Store(s, db, ops[..0]), Store(s, db, ops[..0]), h.session));
      var frames := Baseline(s, db, listing);
      assert frames[..|listing|] == frames && listing[..|listing|] == listing;
      BaselineReplays(h, s, db, listing, |listing|);
      EverythingListed(db, listing);
    } else {
      var k := |ops| - 1;
      var before, frames := Store(s, db, ops[..k]), Journaled(s, db, listing, ops[..k]);
      var emitted := Emit(s, before, ops[k], |frames| + 1);
      Shorter(s, db, ops, h.session);
      OfOnlyGrows(frames, emitted, h.session);
      HistoryReplays(h, s, db, listing, ops[..k]);
      StatementReplays(h, s, frames, before, ops[k]);
      FitsFacts(h, s, frames, emitted);
      StepKeepsTables(s, before, ops[k]);
      StaysScoped(s, before, ops[k]);
    }
  }

  lemma Shorter(s: Schema, db: Tables, ops: seq<Op>, sid: SessionId)
    requires ops != [] && StaysSmall(s, db, ops, sid) && NoneStranded(s, db, ops)
    ensures var k := |ops| - 1;
      && StaysSmall(s, db, ops[..k], sid) && NoneStranded(s, db, ops[..k]) && !Strands(s, Store(s, db, ops[..k]), ops[k])
      && Small(View(s, Store(s, db, ops[..k]), Store(s, db, ops[..k]), sid)) && Small(View(s, Store(s, db, ops), Store(s, db, ops), sid))
  {
    hide Small, View, Step, Strands;
    var k := |ops| - 1;
    forall n | 0 <= n <= k ensures Small(View(s, Store(s, db, ops[..k][..n]), Store(s, db, ops[..k][..n]), sid)) { assert ops[..k][..n] == ops[..n]; }
    forall n | 0 <= n < k ensures !Strands(s, Store(s, db, ops[..k][..n]), ops[..k][n]) { assert ops[..k][..n] == ops[..n]; }
    assert ops[..|ops|] == ops;
  }

  /** The header of an export: the last sequence number, the number of frames and the number of baseline frames of the session. */
  function Exported(s: Schema, frames: seq<Frame>, baseline: seq<Frame>, sid: SessionId): Header {
    var mine := Of(frames, sid);
    Header(sid, if mine == [] then 0 else mine[|mine| - 1].seqNo, |mine|, |Of(baseline, sid)|, s)
  }

  /** The replay of the session's export after these statements is accepted, meets its counts and ends at exactly the session's rows. */
  ghost predicate Exact(s: Schema, db: Tables, listing: seq<(Table, Text)>, ops: seq<Op>, sid: SessionId)
    requires Scoped(s, db) && forall e :: e in listing ==> e.0 in db && e.1 in db[e.0]
  {
    var frames, now := Journaled(s, db, listing, ops), Store(s, db, ops);
    var h := Exported(s, frames, Baseline(s, db, listing), sid);
    var out := ApplyAll(h, Of(frames, sid));
    out.Accepted? && out.state.tables == View(s, now, now, sid) && Complete(h, out.state)
  }

  /** For any statements, including key changes and moves between sessions, the replay accepts every frame that was journaled for a
      session, ends at exactly the session's projected rows, and meets the counts of the export, as long as no statement strands rows. */
  lemma ReplayRebuildsTheSession(s: Schema, db: Tables, listing: seq<(Table, Text)>, ops: seq<Op>, sid: SessionId)
    requires SchemaOk(s) && TablesOk(s, db) && Scoped(s, db) && Lists(db, listing) && StaysSmall(s, db, ops, sid) && NoneStranded(s, db, ops)
    ensures Exact(s, db, listing, ops, sid)
  {
    hide TablesOk, SchemaOk, StaysSmall, View, NoneStranded, Scoped, Holds, Baselines, Complete, Numbered, ApplyAll;
    var frames, now := Journaled(s, db, listing, ops), Store(s, db, ops);
    var h := Exported(s, frames, Baseline(s, db, listing), sid);
    HistoryReplays(h.(high := |frames|), s, db, listing, ops);
    OrderedNumbers(s, db, listing, ops);
    ExportSuffices(h, frames, View(s, now, now, sid));
  }

  /** The header of an export names the last frame and the counts, which is all that the replay of its frames asks for. */
  lemma ExportSuffices(h: Header, frames: seq<Frame>, tables: Tables)
    requires Holds(h.(high := |frames|), frames, tables) && Baselines(h.(high := |frames|), frames) == h.baselineRecords && Numbered(frames, |frames|)
    requires var mine := Of(frames, h.session); h.records == |mine| && h.high == if mine == [] then 0 else mine[|mine| - 1].seqNo
    ensures var out := ApplyAll(h, Of(frames, h.session)); out.Accepted? && out.state.tables == tables && Complete(h, out.state)
  {
    hide StateOk, ApplyAll;
    var mine, wide := Of(frames, h.session), h.(high := |frames|);
    OfKeepsOrder(frames, h.session);
    SameVerdict(h, wide, mine);
    LastIsLast(wide, mine);
  }

  // ---------------------------------------------------------------- when a statement strands rows

  /** Frames of other tables leave a table alone, and what an accepted replay holds does not depend on the counts of its header. */
  lemma {:induction false} OtherTableStays(h: Header, wide: Header, frames: seq<Frame>, more: seq<Frame>, t: Table)
    requires h.session == wide.session && h.schema == wide.schema && ApplyAll(h, frames).Accepted? && ApplyAll(wide, frames + more).Accepted?
    requires forall f :: f in more ==> f.table != t
    ensures t in ApplyAll(h, frames).state.tables ==>
      t in ApplyAll(wide, frames + more).state.tables && ApplyAll(wide, frames + more).state.tables[t] == ApplyAll(h, frames).state.tables[t]
    decreases |more|
  {
    hide FrameProblem, TransitionProblem, Applied;
    if more == [] {
      assert frames + more == frames;
      SameContent(h, wide, frames);
    } else {
      var k := |more| - 1;
      assert (frames + more)[..|frames + more| - 1] == frames + more[..k];
      OtherTableStays(h, wide, frames, more[..k], t);
      OneTable(wide, ApplyAll(wide, frames + more[..k]).state, more[k]);
    }
  }

  lemma OneTable(h: Header, s: State, f: Frame)
    requires Apply(h, s, f).Accepted?
    ensures Apply(h, s, f).state.tables.Keys == s.tables.Keys && forall t :: t in s.tables && t != f.table ==> Apply(h, s, f).state.tables[t] == s.tables[t]
  {
    hide ShapeOk, KeyFits, Agrees;
  }

  lemma {:induction false} SameContent(h: Header, wide: Header, frames: seq<Frame>)
    requires h.session == wide.session && h.schema == wide.schema && ApplyAll(h, frames).Accepted? && ApplyAll(wide, frames).Accepted?
    ensures ApplyAll(h, frames).state == ApplyAll(wide, frames).state
  {
    hide ShapeOk, KeyFits, Agrees, Put, Drop;
    if frames != [] { SameContent(h, wide, frames[..|frames| - 1]); }
  }

  lemma {:induction false} OfJoins(frames: seq<Frame>, more: seq<Frame>, sid: SessionId)
    ensures Of(frames + more, sid) == Of(frames, sid) + Of(more, sid)
    ensures forall f :: f in Of(more, sid) ==> f in more
    decreases |more|
  {
    if more == [] {
      assert frames + more == frames;
    } else {
      var k := |more| - 1;
      OfJoins(frames, more[..k], sid);
      assert (frames + more)[..|frames + more| - 1] == frames + more[..k];
      assert more[k] in more;
    }
  }

  lemma EmitsOfItsTable(s: Schema, db: Tables, op: Op, next: nat)
    ensures forall f :: f in Emit(s, db, op, next) ==> f.table == op.table
  {
    hide Session, Delta;
  }

  /** A row that a statement strands stays in the replay of the session that it left. */
  lemma StrandingIsNotReplayed(s: Schema, db: Tables, listing: seq<(Table, Text)>, ops: seq<Op>) returns (sid: SessionId)
    requires SchemaOk(s) && Scoped(s, db) && Lists(db, listing) && ops != []
    requires var before := Store(s, db, ops[..|ops| - 1]); Scoped(s, before) && Strands(s, before, ops[|ops| - 1])
    ensures !(Exact(s, db, listing, ops[..|ops| - 1], sid) && Exact(s, db, listing, ops, sid))
  {
    hide SchemaOk, Scoped, Strands, Step, Emit, Session, Exact;
    var k := |ops| - 1;
    var before, op := Store(s, db, ops[..k]), ops[k];
    assert Allowed(s, before, op) by { StrandsAllowed(s, before, op); }
    StrandsExactly(s, before, op);
    var u, key :| u in before && key in before[u] && u in s.projections && u != op.table && Session(s, Step(s, before, op), u, before[u][key]) != Session(s, before, u, before[u][key]);
    HasSession(s, before, u, key);
    sid := Session(s, before, u, before[u][key]).value;
    if Exact(s, db, listing, ops[..k], sid) && Exact(s, db, listing, ops, sid) {
      LeftBehind(s, db, listing, ops, sid, u, key);
      assert false;
    }
  }

  lemma HasSession(s: Schema, db: Tables, t: Table, key: Text)
    requires Scoped(s, db) && t in db && key in db[t]
    ensures t in s.projections && Session(s, db, t, db[t][key]).Some?
  {
  }

  lemma StrandsAllowed(s: Schema, db: Tables, op: Op)
    requires Strands(s, db, op)
    ensures Allowed(s, db, op)
  {
  }

  lemma LeftBehind(s: Schema, db: Tables, listing: seq<(Table, Text)>, ops: seq<Op>, sid: SessionId, u: Table, key: Text)
    requires Scoped(s, db) && Lists(db, listing) && ops != [] && Exact(s, db, listing, ops[..|ops| - 1], sid) && Exact(s, db, listing, ops, sid)
    requires var before, op := Store(s, db, ops[..|ops| - 1]), ops[|ops| - 1];
      && u in before && key in before[u] && u in s.projections && u != op.table && Allowed(s, before, op)
      && Session(s, before, u, before[u][key]) == Some(sid)
    ensures var before, op := Store(s, db, ops[..|ops| - 1]), ops[|ops| - 1]; Session(s, Step(s, before, op), u, before[u][key]) == Some(sid)
  {
    hide Emit, Session, Scoped, Allowed, Complete, FrameProblem, TransitionProblem, Applied;
    var k := |ops| - 1;
    var before, op, frames := Store(s, db, ops[..k]), ops[k], Journaled(s, db, listing, ops[..k]);
    var emitted, after := Emit(s, before, op, |frames| + 1), Step(s, before, op);
    EmitsOfItsTable(s, before, op, |frames| + 1);
    OfJoins(frames, emitted, sid);
    var baseline := Baseline(s, db, listing);
    OtherTableStays(Exported(s, frames, baseline, sid), Exported(s, frames + emitted, baseline, sid), Of(frames, sid), Of(emitted, sid), u);
    assert key in View(s, before, before, sid)[u];
    assert key in View(s, after, after, sid)[u];
    UntouchedRow(s, before, op, u);
  }

  lemma UntouchedRow(s: Schema, db: Tables, op: Op, u: Table)
    requires u in db && u != op.table
    ensures u in Step(s, db, op) && Step(s, db, op)[u] == db[u]
  {
    hide Allowed;
  }

  /** The condition is exact: every export along the way, of whatever session, replays to exactly that session's rows if and only if no
      statement strands rows. */
  lemma ReplayIsExactUnlessStranded(s: Schema, db: Tables, listing: seq<(Table, Text)>, ops: seq<Op>)
    requires SchemaOk(s) && TablesOk(s, db) && Scoped(s, db) && Lists(db, listing) && forall sid :: StaysSmall(s, db, ops, sid)
    ensures (forall n, sid :: 0 <= n <= |ops| ==> Exact(s, db, listing, ops[..n], sid)) <==> NoneStranded(s, db, ops)
  {
    hide SchemaOk, TablesOk, Scoped, StaysSmall, Exact, NoneStranded, Strands, Store;
    if NoneStranded(s, db, ops) {
      forall n, sid | 0 <= n <= |ops| ensures Exact(s, db, listing, ops[..n], sid) {
        PrefixIsFine(s, db, ops, n, sid);
        ReplayRebuildsTheSession(s, db, listing, ops[..n], sid);
      }
    } else {
      var n := FirstStranding(s, db, ops);
      PrefixIsFine(s, db, ops[..n], n, 0);
      Kept(s, db, ops[..n]);
      assert ops[..n + 1][..n] == ops[..n] && ops[..n + 1][n] == ops[n];
      var sid := StrandingIsNotReplayed(s, db, listing, ops[..n + 1]);
      assert !(Exact(s, db, listing, ops[..n], sid) && Exact(s, db, listing, ops[..n + 1], sid));
    }
  }

  lemma PrefixIsFine(s: Schema, db: Tables, ops: seq<Op>, n: nat, sid: SessionId)
    requires n <= |ops| && NoneStranded(s, db, ops)
    ensures NoneStranded(s, db, ops[..n]) && (StaysSmall(s, db, ops, sid) ==> StaysSmall(s, db, ops[..n], sid))
  {
    hide Strands, Store, Small, View;
    forall m | 0 <= m < n ensures !Strands(s, Store(s, db, ops[..n][..m]), ops[..n][m]) { assert ops[..n][..m] == ops[..m]; }
    if StaysSmall(s, db, ops, sid) {
      forall m | 0 <= m <= n ensures Small(View(s, Store(s, db, ops[..n][..m]), Store(s, db, ops[..n][..m]), sid)) { assert ops[..n][..m] == ops[..m]; }
    }
  }

  lemma {:induction false} FirstStranding(s: Schema, db: Tables, ops: seq<Op>) returns (n: nat)
    requires !NoneStranded(s, db, ops)
    ensures n < |ops| && NoneStranded(s, db, ops[..n]) && Strands(s, Store(s, db, ops[..n]), ops[n])
    decreases |ops|
  {
    hide Strands, Store;
    var m :| 0 <= m < |ops| && Strands(s, Store(s, db, ops[..m]), ops[m]);
    if NoneStranded(s, db, ops[..m]) {
      n := m;
    } else {
      n := FirstStranding(s, db, ops[..m]);
      assert ops[..m][..n] == ops[..n];
    }
  }

  lemma {:induction false} Kept(s: Schema, db: Tables, ops: seq<Op>)
    requires SchemaOk(s) && Scoped(s, db) && NoneStranded(s, db, ops)
    ensures Scoped(s, Store(s, db, ops))
  {
    hide SchemaOk, Scoped, Strands, Step;
    if ops != [] {
      var k := |ops| - 1;
      PrefixIsFine(s, db, ops, k, 0);
      Kept(s, db, ops[..k]);
      StaysScoped(s, Store(s, db, ops[..k]), ops[k]);
    }
  }

  /** Frames are numbered in order. */
  predicate Numbered(frames: seq<Frame>, upTo: nat) {
    (forall i :: 0 <= i < |frames| ==> 0 < frames[i].seqNo <= upTo) && forall i, j :: 0 <= i < j < |frames| ==> frames[i].seqNo < frames[j].seqNo
  }

  lemma {:induction false} OrderedNumbers(s: Schema, db: Tables, listing: seq<(Table, Text)>, ops: seq<Op>)
    requires Scoped(s, db) && forall e :: e in listing ==> e.0 in db && e.1 in db[e.0]
    ensures Numbered(Journaled(s, db, listing, ops), |Journaled(s, db, listing, ops)|)
  {
    hide Emit, Session;
    if ops != [] {
      var k := |ops| - 1;
      OrderedNumbers(s, db, listing, ops[..k]);
      var before := Journaled(s, db, listing, ops[..k]);
      EmitNumbers(s, Store(s, db, ops[..k]), ops[k], |before| + 1);
    }
  }

  lemma EmitNumbers(s: Schema, db: Tables, op: Op, next: nat)
    ensures forall i :: 0 <= i < |Emit(s, db, op, next)| ==> Emit(s, db, op, next)[i].seqNo == next + i
  {
  }

  lemma {:induction false} OfKeepsOrder(frames: seq<Frame>, sid: SessionId)
    requires Numbered(frames, |frames|)
    ensures Numbered(Of(frames, sid), |frames|)
  {
    SubOrder(frames, sid, |frames|);
  }

  lemma {:induction false} SubOrder(frames: seq<Frame>, sid: SessionId, upTo: nat)
    requires Numbered(frames, upTo)
    ensures Numbered(Of(frames, sid), upTo) && (forall f :: f in Of(frames, sid) ==> f in frames)
  {
    if frames != [] {
      var k := |frames| - 1;
      SubOrder(frames[..k], sid, upTo);
      var rest := Of(frames[..k], sid);
      forall f | f in frames[..k] ensures f in frames && f.seqNo < frames[k].seqNo {}
      Append(rest, frames[k], upTo);
      assert frames[k] in frames;
    }
  }

  lemma Append(frames: seq<Frame>, f: Frame, upTo: nat)
    requires Numbered(frames, upTo) && 0 < f.seqNo <= upTo && forall x :: x in frames ==> x.seqNo < f.seqNo
    ensures Numbered(frames + [f], upTo)
  {
  }

  /** A smaller high-water mark changes nothing as long as no frame lies beyond it. */
  lemma {:induction false} SameVerdict(h: Header, wide: Header, frames: seq<Frame>)
    requires wide == h.(high := wide.high) && forall i :: 0 <= i < |frames| ==> frames[i].seqNo <= h.high && frames[i].seqNo <= wide.high
    ensures ApplyAll(h, frames) == ApplyAll(wide, frames)
  {
    hide Apply;
    if frames != [] {
      var k := |frames| - 1;
      SameVerdict(h, wide, frames[..k]);
      if ApplyAll(h, frames[..k]).Accepted? { SameStep(h, wide, ApplyAll(h, frames[..k]).state, frames[k]); }
    }
  }

  lemma SameStep(h: Header, wide: Header, s: State, f: Frame)
    requires wide == h.(high := wide.high) && f.seqNo <= h.high && f.seqNo <= wide.high
    ensures Apply(h, s, f) == Apply(wide, s, f)
  {
    hide Agrees, KeyFits, ShapeOk;
  }

  lemma LastIsLast(h: Header, frames: seq<Frame>)
    requires ApplyAll(h, frames).Accepted?
    ensures ApplyAll(h, frames).state.last == if frames == [] then 0 else frames[|frames| - 1].seqNo
  {
    hide Agrees, KeyFits, ShapeOk, Applied;
  }
}
