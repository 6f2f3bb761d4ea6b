/** A parent row that moves to another session takes the rows that refer to it along, without a frame. */
module JournalExample {
  import opened Wrappers
  import opened Journal
  import opened JournalScopes
  import opened Replay
  import opened JournalReplay

  const AGENTS: Table := 1
  const MEMORIES: Table := 2

  /** Agents (id, session_id) and memories (id, agent_id). */
  function TwoTables(text: Row -> Text): Schema {
    Schema(map[AGENTS := Projection({0, 1}, {0}, Own(1)), MEMORIES := Projection({0, 1}, {0}, Through(1, AGENTS, Own(1)))], 0, text)
  }

  /** Agent 1 in session 7 has memory 5. */
  function Stored(text: Row -> Text): Tables { map[AGENTS := map[text(map[0 := 1]) := map[0 := 1, 1 := 7]], MEMORIES := map[text(map[0 := 5]) := map[0 := 5, 1 := 1]]] }

  function Listing(text: Row -> Text): seq<(Table, Text)> { [(AGENTS, text(map[0 := 1])), (MEMORIES, text(map[0 := 5]))] }

  /** The agent moves to session 8. */
  function Move(text: Row -> Text): Op { Update(AGENTS, text(map[0 := 1]), map[0 := 1, 1 := 8]) }

  ghost predicate Injective(text: Row -> Text) { forall a, b :: text(a) == text(b) ==> a == b }

  lemma StoreIsFine(text: Row -> Text)
    requires Injective(text)
    ensures SchemaOk(TwoTables(text)) && TablesOk(TwoTables(text), Stored(text)) && Scoped(TwoTables(text), Stored(text)) && Lists(Stored(text), Listing(text))
  {
    hide TablesOk, Scoped, Lists;
    RowsAreFull(text);
    RowsAreScoped(text);
    RowsAreListed(text);
  }

  lemma RowsAreFull(text: Row -> Text)
    ensures TablesOk(TwoTables(text), Stored(text))
  {
    var s := TwoTables(text);
    assert KeyOf(s.projections[AGENTS], map[0 := 1, 1 := 7]) == map[0 := 1];
    assert KeyOf(s.projections[MEMORIES], map[0 := 5, 1 := 1]) == map[0 := 5];
  }

  lemma RowsAreScoped(text: Row -> Text)
    ensures Scoped(TwoTables(text), Stored(text))
  {
    var s, db, memory := TwoTables(text), Stored(text), map[0 := 5, 1 := 1];
    assert Link(s, 1) == text(map[0 := 1]);
    assert Session(s, db, AGENTS, map[0 := 1, 1 := 7]) == Some(7);
    assert Refers(s, db, s.projections[MEMORIES].scope, memory);
    assert Session(s, db, MEMORIES, memory) == Some(7);
  }

  lemma RowsAreListed(text: Row -> Text)
    ensures Lists(Stored(text), Listing(text))
  {
    assert (AGENTS, text(map[0 := 1])) == Listing(text)[0] && (MEMORIES, text(map[0 := 5])) == Listing(text)[1];
  }

  lemma MoveStrands(text: Row -> Text)
    requires Injective(text)
    ensures Strands(TwoTables(text), Stored(text), Move(text))
  {
    var s, db, op := TwoTables(text), Stored(text), Move(text);
    var memory := map[0 := 5, 1 := 1];
    assert KeyOf(s.projections[AGENTS], op.row) == map[0 := 1];
    assert Link(s, 1) == text(map[0 := 1]);
    assert Refers(s, db, s.projections[MEMORIES].scope, memory);
    assert Passes(s, db, s.projections[MEMORIES].scope, memory, AGENTS, op.key);
    assert db[MEMORIES][text(map[0 := 5])] == memory;
    assert Resolves(s, db, AGENTS, op.key);
  }

  lemma FewRows(text: Row -> Text, sid: SessionId)
    ensures StaysSmall(TwoTables(text), Stored(text), [], sid)
  {
    hide Session;
    var view := View(TwoTables(text), Stored(text), Stored(text), sid);
    var all := {(AGENTS, text(map[0 := 1])), (MEMORIES, text(map[0 := 5]))};
    assert RowIds(view) <= all;
    Subset(RowIds(view), all);
    var none: seq<Op> := [];
    assert none[..0] == none;
  }

  /** Before the move every export replays exactly; after it some export does not. */
  lemma MovedParentIsNotReplayed(text: Row -> Text) returns (sid: SessionId)
    requires Injective(text)
    ensures SchemaOk(TwoTables(text)) && TablesOk(TwoTables(text), Stored(text)) && Scoped(TwoTables(text), Stored(text)) && Lists(Stored(text), Listing(text))
    ensures forall any :: Exact(TwoTables(text), Stored(text), Listing(text), [], any)
    ensures !Exact(TwoTables(text), Stored(text), Listing(text), [Move(text)], sid)
  {
    hide SchemaOk, TablesOk, Scoped, Lists, Strands, StaysSmall, Exact;
    StoreIsFine(text);
    MoveStrands(text);
    var s, db, listing := TwoTables(text), Stored(text), Listing(text);
    ListsRows(db, listing);
    forall any ensures Exact(s, db, listing, [], any) {
      FewRows(text, any);
      ReplayRebuildsTheSession(s, db, listing, [], any);
    }
    assert [Move(text)][..0] == [];
    sid := StrandingIsNotReplayed(s, db, listing, [Move(text)]);
  }

  lemma ListsRows(db: Tables, listing: seq<(Table, Text)>)
    requires Lists(db, listing)
    ensures forall e :: e in listing ==> e.0 in db && e.1 in db[e.0]
  {
  }
}
