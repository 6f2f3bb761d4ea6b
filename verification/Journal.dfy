/** Row changes of the store and the frames that its triggers append for them. */
module Journal {
  import opened Wrappers

  type Table = nat
  type Column = nat
  type Cell = nat
  type SessionId = nat

  /** A projected row, and a key: the key columns of a row. */
  type Row = map<Column, Cell>

  /** The canonical text of a key. */
  type Text = nat

  /** Where the session of a row stands: in a column of its own, or in the row that a column refers to, and so on. */
  datatype Scope = Own(column: Column) | Through(column: Column, parent: Table, onward: Scope)

  datatype Projection = Projection(columns: set<Column>, keys: set<Column>, scope: Scope)

  datatype Kind = BASELINE | INSERT | UPDATE | DELETE

  datatype Frame = Frame(seqNo: nat, session: SessionId, table: Table, key: Row, kind: Kind, before: Option<Row>, after: Option<Row>)

  type Tables = map<Table, map<Text, Row>>

  /** What is fixed: the projection of each table, the column that parents are referred to by, and the printing of keys. */
  datatype Schema = Schema(projections: map<Table, Projection>, id: Column, text: Row -> Text)

  const NULL: Cell := 0

  /** Every table has a key among its columns, different keys print differently, and references lead to tables that are found by
      their id and are scoped in the same way, without a cycle. */
  ghost predicate SchemaOk(s: Schema) {
    && (forall t :: t in s.projections ==> s.projections[t].keys != {} && s.projections[t].keys <= s.projections[t].columns)
    && (forall a, b :: s.text(a) == s.text(b) ==> a == b)
    && (forall t :: t in s.projections ==> ScopeOk(s, s.projections[t].scope) && t !in Chain(s.projections[t].scope))
  }

  predicate ScopeOk(s: Schema, scope: Scope) {
    scope.Through? ==> scope.parent in s.projections && s.projections[scope.parent].keys == {s.id} && scope.onward == s.projections[scope.parent].scope
  }

  /** The tables that a session is looked up in. */
  function Chain(scope: Scope): set<Table> { if scope.Own? then {} else {scope.parent} + Chain(scope.onward) }

  // ---------------------------------------------------------------- the session of a row

  /** The key of the row that a cell refers to. */
  function Link(s: Schema, cell: Cell): Text { s.text(map[s.id := cell]) }

  predicate Refers(s: Schema, db: Tables, scope: Scope, row: Row)
    requires scope.Through?
  {
    scope.column in row && row[scope.column] != NULL && scope.parent in db && Link(s, row[scope.column]) in db[scope.parent]
  }

  /** The nested SELECT; None is the NULL of a reference that leads nowhere. */
  function Lookup(s: Schema, db: Tables, scope: Scope, row: Row): Option<SessionId> {
    if scope.Own? then (if scope.column in row && row[scope.column] != NULL then Some(row[scope.column]) else None)
    else if Refers(s, db, scope, row) then Lookup(s, db, scope.onward, db[scope.parent][Link(s, row[scope.column])])
    else None
  }

  function Session(s: Schema, db: Tables, t: Table, row: Row): Option<SessionId>
    requires t in s.projections
  {
    Lookup(s, db, s.projections[t].scope, row)
  }

  /** Every stored row has a session. A store in which one has none cannot be given a journal: its baseline frame would have no session. */
  ghost predicate Scoped(s: Schema, db: Tables) { forall t, k :: t in db && k in db[t] ==> t in s.projections && Session(s, db, t, db[t][k]).Some? }

  // ---------------------------------------------------------------- rows and statements

  function KeyOf(p: Projection, row: Row): Row { map c | c in p.keys && c in row :: row[c] }

  function KeyText(s: Schema, p: Projection, row: Row): Text { s.text(KeyOf(p, row)) }

  predicate FullRow(p: Projection, row: Row) { row.Keys == p.columns }

  /** Rows are complete and stored under their own key. */
  ghost predicate TablesOk(s: Schema, tables: Tables) {
    && tables.Keys == s.projections.Keys
    && forall t, k :: t in tables && k in tables[t] ==> FullRow(s.projections[t], tables[t][k]) && KeyText(s, s.projections[t], tables[t][k]) == k
  }

  datatype Op = Insert(table: Table, row: Row) | Delete(table: Table, key: Text) | Update(table: Table, key: Text, row: Row)

  /** The store refuses what would break a table: an unknown table or row, a partial row, a second row under one key. */
  predicate Shaped(s: Schema, db: Tables, op: Op) {
    && op.table in s.projections && op.table in db
    && match op
       case Insert(t, row) => FullRow(s.projections[t], row) && KeyText(s, s.projections[t], row) !in db[t]
       case Delete(t, key) => key in db[t]
       case Update(t, key, row) =>
         key in db[t] && FullRow(s.projections[t], row) && (KeyText(s, s.projections[t], row) == key || KeyText(s, s.projections[t], row) !in db[t])
  }

  function Put(rows: map<Text, Row>, key: Text, row: Row): map<Text, Row> { rows[key := row] }

  function Drop(rows: map<Text, Row>, key: Text): map<Text, Row> { rows - {key} }

  function Changed(s: Schema, db: Tables, op: Op): Tables
    requires Shaped(s, db, op)
  {
    match op
    case Insert(t, row) => db[t := Put(db[t], KeyText(s, s.projections[t], row), row)]
    case Delete(t, key) => db[t := Drop(db[t], key)]
    case Update(t, key, row) => db[t := Put(Drop(db[t], key), KeyText(s, s.projections[t], row), row)]
  }

  /** A frame without a session violates NOT NULL and aborts the statement. The triggers run after the change. An update of a row
      without a session passes if it keeps the key and gives the row one: the comparison with NULL then suppresses the delete frame. */
  predicate Allowed(s: Schema, db: Tables, op: Op) {
    Shaped(s, db, op) &&
    var after := Changed(s, db, op);
    match op
    case Insert(t, row) => Session(s, after, t, row).Some?
    case Delete(t, key) => Session(s, after, t, db[t][key]).Some?
    case Update(t, key, row) =>
      || db[t][key] == row
      || (Session(s, after, t, row).Some? && (Session(s, after, t, db[t][key]).Some? || KeyText(s, s.projections[t], row) == key))
  }

  function Step(s: Schema, db: Tables, op: Op): Tables { if Allowed(s, db, op) then Changed(s, db, op) else db }

  /** The key and the changed columns, as they are in `row`. */
  function Delta(p: Projection, was: Row, now: Row, row: Row): Row {
    map c | c in p.columns && c in row && (c in p.keys || c !in was || c !in now || was[c] != now[c]) :: row[c]
  }

  /** The trigger bodies. An update that keeps key and session is one delta frame; any other is a delete and an insert. */
  function Emit(s: Schema, db: Tables, op: Op, next: nat): seq<Frame> {
    if !Allowed(s, db, op) then []
    else
      var p, after := s.projections[op.table], Changed(s, db, op);
      match op
      case Insert(t, row) => [Frame(next, Session(s, after, t, row).value, t, KeyOf(p, row), INSERT, None, Some(row))]
      case Delete(t, key) => [Frame(next, Session(s, after, t, db[t][key]).value, t, KeyOf(p, db[t][key]), DELETE, Some(db[t][key]), None)]
      case Update(t, key, row) =>
        var was := db[t][key];
        if was == row then []
        else
          var left, joined := Session(s, after, t, was), Session(s, after, t, row).value;
          if KeyText(s, p, row) == key && left == Some(joined) then
            [Frame(next, joined, t, KeyOf(p, row), UPDATE, Some(Delta(p, was, row, was)), Some(Delta(p, was, row, row)))]
          else if left.None? then [Frame(next, joined, t, KeyOf(p, row), INSERT, None, Some(row))]
          else [Frame(next, left.value, t, KeyOf(p, was), DELETE, Some(was), None), Frame(next + 1, joined, t, KeyOf(p, row), INSERT, None, Some(row))]
  }

  function Store(s: Schema, db: Tables, ops: seq<Op>): Tables {
    if ops == [] then db else Step(s, Store(s, db, ops[..|ops| - 1]), ops[|ops| - 1])
  }

  /** The rows that already exist when journaling begins, one frame each, in the order of a listing. */
  function Baseline(s: Schema, db: Tables, listing: seq<(Table, Text)>): seq<Frame>
    requires Scoped(s, db) && forall e :: e in listing ==> e.0 in db && e.1 in db[e.0]
  {
    seq(|listing|, i requires 0 <= i < |listing| =>
      var t, k := listing[i].0, listing[i].1;
      Frame(i + 1, Session(s, db, t, db[t][k]).value, t, KeyOf(s.projections[t], db[t][k]), BASELINE, None, Some(db[t][k])))
  }

  function Journaled(s: Schema, db: Tables, listing: seq<(Table, Text)>, ops: seq<Op>): seq<Frame>
    requires Scoped(s, db) && forall e :: e in listing ==> e.0 in db && e.1 in db[e.0]
  {
    if ops == [] then Baseline(s, db, listing)
    else
      var before := Journaled(s, db, listing, ops[..|ops| - 1]);
      before + Emit(s, Store(s, db, ops[..|ops| - 1]), ops[|ops| - 1], |before| + 1)
  }

  /** The frames of one session. */
  function Of(frames: seq<Frame>, session: SessionId): seq<Frame> {
    if frames == [] then []
    else Of(frames[..|frames| - 1], session) + (if frames[|frames| - 1].session == session then [frames[|frames| - 1]] else [])
  }

  /** The rows of a table that belong to a session, as looked up in the tables `at`. */
  function Mine(s: Schema, at: Tables, t: Table, rows: map<Text, Row>, session: SessionId): map<Text, Row>
    requires t in s.projections
  {
    map k | k in rows && Session(s, at, t, rows[k]) == Some(session) :: rows[k]
  }

  /** The projected rows of one session. */
  function View(s: Schema, at: Tables, db: Tables, session: SessionId): Tables { map t | t in db && t in s.projections :: Mine(s, at, t, db[t], session) }

  /** The journal table and the tables that it watches: each method is a statement with the triggers it fires. */
  class Database {
    const schema: Schema
    var tables: Tables
    var journal: seq<Frame>

    constructor (schema: Schema, tables: Tables, listing: seq<(Table, Text)>)
      requires Scoped(schema, tables) && forall e :: e in listing ==> e.0 in tables && e.1 in tables[e.0]
      ensures this.schema == schema && this.tables == tables && journal == Baseline(schema, tables, listing)
    {
      this.schema := schema;
      this.tables := tables;
      this.journal := Baseline(schema, tables, listing);
    }

    method InsertRow(t: Table, row: Row) returns (done: bool)
      modifies this
      ensures done == Allowed(schema, old(tables), Insert(t, row))
      ensures tables == Step(schema, old(tables), Insert(t, row))
      ensures journal == old(journal) + Emit(schema, old(tables), Insert(t, row), |old(journal)| + 1)
    {
      done := Shaped(schema, tables, Insert(t, row));
      if !done { return; }
      var was := tables;
      tables := tables[t := Put(tables[t], KeyText(schema, schema.projections[t], row), row)];
      done := Note(Session(schema, tables, t, row), t, KeyOf(schema.projections[t], row), INSERT, None, Some(row));
      if !done { tables := was; }
    }

    method DeleteRow(t: Table, key: Text) returns (done: bool)
      modifies this
      ensures done == Allowed(schema, old(tables), Delete(t, key))
      ensures tables == Step(schema, old(tables), Delete(t, key))
      ensures journal == old(journal) + Emit(schema, old(tables), Delete(t, key), |old(journal)| + 1)
    {
      done := Shaped(schema, tables, Delete(t, key));
      if !done { return; }
      var was, row := tables, tables[t][key];
      tables := tables[t := Drop(tables[t], key)];
      done := Note(Session(schema, tables, t, row), t, KeyOf(schema.projections[t], row), DELETE, Some(row), None);
      if !done { tables := was; }
    }

    method UpdateRow(t: Table, key: Text, row: Row) returns (done: bool)
      modifies this
      ensures done == Allowed(schema, old(tables), Update(t, key, row))
      ensures tables == Step(schema, old(tables), Update(t, key, row))
      ensures journal == old(journal) + Emit(schema, old(tables), Update(t, key, row), |old(journal)| + 1)
    {
      done := Shaped(schema, tables, Update(t, key, row));
      if !done { return; }
      var p := schema.projections[t];
      var before, written, was, next := tables, journal, tables[t][key], KeyText(schema, p, row);
      tables := tables[t := Put(Drop(tables[t], key), next, row)];
      if was == row { return; }
      var left, joined := Session(schema, tables, t, was), Session(schema, tables, t, row);
      var same := next == key && left == joined;
      if next != key || (left.Some? && joined.Some? && left != joined) { done := Note(left, t, KeyOf(p, was), DELETE, Some(was), None); }
      if done {
        done := Note(joined, t, KeyOf(p, row), if same then UPDATE else INSERT, if same then Some(Delta(p, was, row, was)) else None,
                     if same then Some(Delta(p, was, row, row)) else Some(row));
      }
      if !done { tables, journal := before, written; }
    }

    /** Appends one frame, unless it has no session. */
    method Note(session: Option<SessionId>, t: Table, key: Row, kind: Kind, before: Option<Row>, after: Option<Row>) returns (done: bool)
      modifies this`journal
      ensures done == session.Some?
      ensures journal == old(journal) + (if session.Some? then [Frame(|old(journal)| + 1, session.value, t, key, kind, before, after)] else [])
    {
      done := session.Some?;
      if done { journal := journal + [Frame(|journal| + 1, session.value, t, key, kind, before, after)]; }
    }
  }
}
