/** How a statement affects the sessions of rows that it does not touch: they are looked up through other rows. */
module JournalScopes {
  import opened Wrappers
  import opened Journal

  /** The lookup of the row's session passes through the row of table t under this key. */
  predicate Passes(s: Schema, db: Tables, scope: Scope, row: Row, t: Table, key: Text) {
    scope.Through? && Refers(s, db, scope, row) &&
    var link := Link(s, row[scope.column]);
    (scope.parent == t && link == key) || Passes(s, db, scope.onward, db[scope.parent][link], t, key)
  }

  /** Some stored row has its session from the row of table t under this key. */
  predicate Resolves(s: Schema, db: Tables, t: Table, key: Text) {
    exists u, k :: u in db && k in db[u] && u in s.projections && Passes(s, db, s.projections[u].scope, db[u][k], t, key)
  }

  /** The statement deletes a row that others have their session from, or gives it another key or another session. */
  predicate Strands(s: Schema, db: Tables, op: Op) {
    && Allowed(s, db, op) && !op.Insert? && Resolves(s, db, op.table, op.key)
    && (op.Update? ==> KeyText(s, s.projections[op.table], op.row) != op.key
                       || Session(s, db, op.table, op.row) != Session(s, db, op.table, db[op.table][op.key]))
  }

  /** Tables that are not in the chain do not matter. */
  lemma {:induction false} LookupIgnores(s: Schema, db: Tables, scope: Scope, row: Row, t: Table, rows: map<Text, Row>)
    requires t !in Chain(scope)
    ensures Lookup(s, db[t := rows], scope, row) == Lookup(s, db, scope, row)
    ensures forall u, k :: Passes(s, db, scope, row, u, k) ==> u != t
    decreases scope
  {
    if scope.Through? && Refers(s, db, scope, row) {
      LookupIgnores(s, db, scope.onward, db[scope.parent][Link(s, row[scope.column])], t, rows);
    }
  }

  /** A lookup that does not pass through the changed row, and leads somewhere, does not see the change. */
  lemma {:induction false} LookupPassesBy(s: Schema, db: Tables, scope: Scope, row: Row, t: Table, key: Text, rows: map<Text, Row>)
    requires t in db && !Passes(s, db, scope, row, t, key) && Lookup(s, db, scope, row).Some?
    requires forall k :: k in db[t] && k != key ==> k in rows && rows[k] == db[t][k]
    ensures Lookup(s, db[t := rows], scope, row) == Lookup(s, db, scope, row)
    decreases scope
  {
    if scope.Through? {
      LookupPassesBy(s, db, scope.onward, db[scope.parent][Link(s, row[scope.column])], t, key, rows);
    }
  }

  /** A lookup that passes through a row yields that row's session, and after a change whatever is found under the key then. */
  lemma {:induction false} LookupFollows(s: Schema, db: Tables, scope: Scope, row: Row, t: Table, key: Text, rows: map<Text, Row>)
    requires SchemaOk(s) && ScopeOk(s, scope) && t in s.projections && t in db && key in db[t] && Passes(s, db, scope, row, t, key)
    ensures Lookup(s, db, scope, row) == Session(s, db, t, db[t][key])
    ensures Lookup(s, db[t := rows], scope, row) == if key in rows then Session(s, db, t, rows[key]) else None
    decreases scope
  {
    var parent, link := scope.parent, Link(s, row[scope.column]);
    var next := db[parent][link];
    if parent == t {
      if link != key { LookupIgnores(s, db, scope.onward, next, t, rows); }
      if key in rows { LookupIgnores(s, db, scope.onward, rows[key], t, rows); }
    } else {
      LookupFollows(s, db, scope.onward, next, t, key, rows);
    }
  }

  lemma OwnScope(s: Schema, db: Tables, t: Table, row: Row, rows: map<Text, Row>)
    requires SchemaOk(s) && t in s.projections
    ensures Session(s, db[t := rows], t, row) == Session(s, db, t, row)
  {
    LookupIgnores(s, db, s.projections[t].scope, row, t, rows);
  }

  /** The statement changes one row of one table. */
  lemma ChangesOneRow(s: Schema, db: Tables, op: Op)
    requires Shaped(s, db, op)
    ensures var t, key := op.table, if op.Insert? then KeyText(s, s.projections[op.table], op.row) else op.key;
      && Changed(s, db, op) == db[t := Changed(s, db, op)[t]]
      && (forall k :: k in db[t] && k != key ==> k in Changed(s, db, op)[t] && Changed(s, db, op)[t][k] == db[t][k])
      && (op.Insert? ==> key !in db[t])
  {
  }

  /** The sessions of all other rows stay as they are, unless the statement strands some of them. */
  lemma OthersStay(s: Schema, db: Tables, op: Op, u: Table, k: Text)
    requires SchemaOk(s) && Scoped(s, db) && Allowed(s, db, op) && u in db && k in db[u]
    ensures u in s.projections && (!Strands(s, db, op) ==> Session(s, Step(s, db, op), u, db[u][k]) == Session(s, db, u, db[u][k]))
  {
    hide SchemaOk, KeyText, Changed;
    ChangesOneRow(s, db, op);
    var t, rows, scope := op.table, Changed(s, db, op)[op.table], s.projections[u].scope;
    var key := if op.Insert? then KeyText(s, s.projections[t], op.row) else op.key;
    if !Passes(s, db, scope, db[u][k], t, key) {
      LookupPassesBy(s, db, scope, db[u][k], t, key, rows);
    } else {
      PassesStored(s, db, scope, db[u][k], t, key);
      assert Resolves(s, db, t, key);
      SchemaScopes(s, u);
      LookupFollows(s, db, scope, db[u][k], t, key, rows);
      if !Strands(s, db, op) { StaysInPlace(s, db, op); }
    }
  }

  lemma SchemaScopes(s: Schema, t: Table)
    requires SchemaOk(s) && t in s.projections
    ensures ScopeOk(s, s.projections[t].scope) && t !in Chain(s.projections[t].scope)
  {
  }

  lemma {:induction false} PassesStored(s: Schema, db: Tables, scope: Scope, row: Row, t: Table, key: Text)
    requires Passes(s, db, scope, row, t, key)
    ensures t in Chain(scope) && t in db && key in db[t]
    decreases scope
  {
    var link := Link(s, row[scope.column]);
    if !(scope.parent == t && link == key) { PassesStored(s, db, scope.onward, db[scope.parent][link], t, key); }
  }

  /** A parent that is updated without stranding anybody keeps its key and its session. */
  lemma StaysInPlace(s: Schema, db: Tables, op: Op)
    requires Allowed(s, db, op) && !op.Insert? && !Strands(s, db, op) && Resolves(s, db, op.table, op.key)
    ensures op.Update? && op.key in Changed(s, db, op)[op.table] && Changed(s, db, op)[op.table][op.key] == op.row
    ensures Session(s, db, op.table, op.row) == Session(s, db, op.table, db[op.table][op.key])
  {
  }

  /** The guard is exact: a statement strands a row if and only if some row of another table, which it does not touch, has another
      session afterwards, or none. */
  lemma StrandsExactly(s: Schema, db: Tables, op: Op)
    requires SchemaOk(s) && Scoped(s, db) && Allowed(s, db, op)
    ensures Strands(s, db, op) <==>
      exists u, k :: u in db && k in db[u] && u in s.projections && u != op.table && Session(s, Step(s, db, op), u, db[u][k]) != Session(s, db, u, db[u][k])
  {
    hide SchemaOk, KeyText, Shaped;
    if Strands(s, db, op) {
      var u, k :| u in db && k in db[u] && u in s.projections && Passes(s, db, s.projections[u].scope, db[u][k], op.table, op.key);
      Stranded(s, db, op, u, k);
    }
    if !Strands(s, db, op) {
      forall u, k | u in db && k in db[u] && u in s.projections ensures Session(s, Step(s, db, op), u, db[u][k]) == Session(s, db, u, db[u][k]) { OthersStay(s, db, op, u, k); }
    }
  }

  lemma Stranded(s: Schema, db: Tables, op: Op, u: Table, k: Text)
    requires SchemaOk(s) && Scoped(s, db) && Strands(s, db, op) && u in db && k in db[u] && u in s.projections
    requires Passes(s, db, s.projections[u].scope, db[u][k], op.table, op.key)
    ensures u != op.table && Session(s, Step(s, db, op), u, db[u][k]) != Session(s, db, u, db[u][k])
  {
    hide SchemaOk;
    PassesStored(s, db, s.projections[u].scope, db[u][k], op.table, op.key);
    SchemaScopes(s, u);
    LookupFollows(s, db, s.projections[u].scope, db[u][k], op.table, op.key, Changed(s, db, op)[op.table]);
  }

  /** A statement that strands nobody keeps every row in a session. */
  lemma StaysScoped(s: Schema, db: Tables, op: Op)
    requires SchemaOk(s) && Scoped(s, db) && !Strands(s, db, op)
    ensures Scoped(s, Step(s, db, op))
  {
    hide SchemaOk, Strands;
    var after := Step(s, db, op);
    if Allowed(s, db, op) {
      forall u, k | u in after && k in after[u] ensures u in s.projections && Session(s, after, u, after[u][k]).Some? {
        if u in db && k in db[u] && after[u][k] == db[u][k] {
          OthersStay(s, db, op, u, k);
        } else {
          assert u == op.table && after[u][k] == op.row;
          if op.Update? && db[u][op.key] == op.row { OwnScope(s, db, u, op.row, after[u]); }
        }
      }
    }
  }

  /** A row whose parent is gone can be neither deleted nor stored again under another key. */
  lemma NoSessionNoFrame(s: Schema, db: Tables, op: Op)
    requires SchemaOk(s) && Shaped(s, db, op) && !op.Insert? && Session(s, db, op.table, db[op.table][op.key]).None?
    requires op.Update? ==> op.row != db[op.table][op.key] && KeyText(s, s.projections[op.table], op.row) != op.key
    ensures !Allowed(s, db, op) && Step(s, db, op) == db
  {
    hide SchemaOk;
    OwnScope(s, db, op.table, db[op.table][op.key], Changed(s, db, op)[op.table]);
  }
}
