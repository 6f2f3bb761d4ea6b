/** One small ledger in which a correction that corrects nothing leaves two equal memories side by side. */
module LedgerExample {
  import opened Wrappers
  import opened Ledger
  import opened LedgerProofs
  import Reconciliation

  const Fact := Meaning(None, Phrase(1, 1), Phrase(2, 2), SelfReport, None, None)

  const Held0 := Memory(0, Phrase(3, 3), {0}, {Ref(0, 1)}, Some(Fact), ACTIVE, 1, {})

  /** Agent 0 remembers what the operator said in message 0. */
  const Before := Book(map[0 := 0], map[0 := Message(0, 1, false, None)], map[0 := Held0], map[0 := 1])

  const Shown := Request(0, 0, map[0 := 1], {0})

  /** The same report, from the same message, as a correction of the memory. */
  const Again := Change(Correct, Phrase(3, 3), [0], Fact, [0], [])

  const Inserted := Book(map[0 := 0], map[0 := Message(0, 1, false, None)],
                         map[0 := Held0, 1 := Memory(0, Phrase(3, 3), {0}, {Ref(0, 1)}, Some(Fact), CONFLICT, 2, {0})], map[0 := 2])

  lemma BeforeIsOk()
    ensures Ok(Before)
  {
    assert Cited({Ref(0, 1)}) == {0};
  }

  lemma NothingWrong()
    ensures Bound(Before, Shown) && ChangeProblem(Before, Shown, Again).Pass? && Current(Before, 0) && !IsCorrection(Before, Again)
  {
    assert Supplied(Before, Shown, 0);
    assert TargetProblem(Before, Again, []).Pass?;
    assert TargetProblem(Before, Again, [0]).Pass?;
  }

  lemma Relations()
    ensures Equivalent(Before, 0, Fact) == {0} && Matching(Before, 0, Fact) == {0} && Conflicts(Before, Shown, Again) == {}
    ensures Superseded(Before, Shown, Again) == {0} && Contradicted(Before, Shown, Again) == {0} && Lineage(Before, Shown, Again) == {0}
    ensures NewStatus(Before, Shown, Again) == CONFLICT
  {
    NothingWrong();
  }

  lemma Insertion()
    ensures Insert(Before, 0, 1, Phrase(3, 3), {Ref(0, 1)}, Some(Fact), {0}, CONFLICT) == Saved(Inserted, {})
    ensures RefsOf(Before, [0]) + Inherited(Before, {0}) == {Ref(0, 1)}
  {
    assert Cited({Ref(0, 1)}) == {0};
    assert 0 in [0];
    assert RefsOf(Before, [0]) == {Ref(0, 1)};
    assert Ref(0, 1) in Before.memories[0].evidence && Inherited(Before, {0}) == {Ref(0, 1)};
  }

  /** The new memory is the only one that descends from memory 0. */
  lemma NothingLost()
    ensures Descendants(Inserted, {0} + {0}, Some(1)) == {}
  {
    forall x | x in Inserted.memories ensures !Descends(Inserted, {0} + {0}, Some(1), x) {
      if path :| IsPath(Inserted, {0} + {0}, Some(1), path) && path[|path| - 1] == x { assert path[1] in Inserted.memories && path[0] in Inserted.memories[path[1]].parents; }
    }
  }

  const Empty := Book(map[0 := 0], map[0 := Message(0, 1, false, None)], map[], map[0 := 0])

  const First := Change(Add, Phrase(3, 3), [0], Fact, [], [])

  /** The agent joins, the operator speaks, and the agent remembers it. */
  const Story: seq<Event> := [Joined(0, 0), Posted(0, Message(0, 1, false, None)), Result(Heard, [], [First], [0])]

  const Heard := Request(0, 0, map[0 := 1], {})

  lemma FirstIsValid()
    ensures Bound(Empty, Heard) && ChangeProblem(Empty, Heard, First).Pass?
    ensures Lineage(Empty, Heard, First) == {} && Superseded(Empty, Heard, First) == {} && Contradicted(Empty, Heard, First) == {}
    ensures NewStatus(Empty, Heard, First) == ACTIVE
  {
    assert Supplied(Empty, Heard, 0);
    assert Matching(Empty, 0, Fact) == {} && Equivalent(Empty, 0, Fact) == {} && Conflicts(Empty, Heard, First) == {};
  }

  lemma FirstInsertion()
    ensures RefsOf(Empty, [0]) + Inherited(Empty, {}) == {Ref(0, 1)}
    ensures Insert(Empty, 0, 0, Phrase(3, 3), {Ref(0, 1)}, Some(Fact), {}, ACTIVE) == Saved(Before, {})
  {
    assert 0 in [0];
    assert RefsOf(Empty, [0]) == {Ref(0, 1)};
    assert Cited({Ref(0, 1)}) == {0};
  }

  lemma NothingToReconcile()
    ensures Reconciled(Before, {}, {}, 0) == Saved(Before, {})
  {
    forall x | x in Before.memories ensures !Descends(Before, {}, Some(0), x) {}
  }

  lemma FirstIsSaved()
    ensures Bound(Empty, Heard) && SaveChange(Empty, Heard, First, 0) == Saved(Before, {})
  {
    hide Bound, ChangeProblem, NewStatus, Superseded, Contradicted, Lineage, Insert, RefsOf, Inherited, Reconciled;
    FirstIsValid();
    FirstInsertion();
    NothingToReconcile();
  }

  lemma OnlyChange(b: Book, r: Request, c: Change, id: MemoryId)
    requires Bound(b, r) && SaveChange(b, r, c, id).Saved?
    ensures Next(b, Result(r, [], [c], [id])) == SaveChange(b, r, c, id).book
  {
    hide SaveChange, Bound;
    var f: Book -> Ledger.Result := x => SaveChange(x, r, c, id);
    assert [id][0..] == [id] && [c][..0] == [];
    assert SaveChanges(b, r, [], [id]) == Saved(b, {});
    assert SaveChanges(b, r, [c], [id]).Saved? && SaveChanges(b, r, [c], [id]).book == f(b).book;
    assert SaveNotes(b, r, [], [id]) == Saved(b, {});
  }

  lemma BeforeIsReached()
    ensures Before == Run(Blank, Story)
  {
    hide SaveChange;
    FirstIsSaved();
    OnlyChange(Empty, Heard, First, 0);
    var one := Next(Blank, Story[0]);
    assert Next(one, Story[1]) == Empty;
    ThreeSteps(Blank, Story);
  }

  lemma ThreeSteps(b: Book, events: seq<Event>)
    requires |events| == 3
    ensures Run(b, events) == Next(Next(Next(b, events[0]), events[1]), events[2])
  {
    hide Next;
    var one := Next(b, events[0]);
    var two := Next(one, events[1]);
    assert events[1..][1..] == [events[2]];
    assert Run(two, [events[2]]) == Next(two, events[2]);
    assert Run(one, events[1..]) == Run(two, [events[2]]);
  }

  /** In this reachable ledger the accepted change repeats what is known, and leaves two current memories that say the same. */
  lemma EquivalentsCanStayApart()
    ensures var b := Run(Blank, Story); var out := SaveChange(b, Shown, Again, 1);
      && Bound(b, Shown) && out.Saved? && Current(out.book, 0) && Current(out.book, 1)
      && out.book.memories[0].meaning == out.book.memories[1].meaning == Some(Fact)
      && Reconciliation.RepeatsItself(b, Shown, Again)
  {
    hide Descendants, ChangeProblem, NewStatus, Superseded, Contradicted, Conflicts, Lineage, Equivalent, Matching, Insert, RefsOf, Inherited, Reconciled, Ok, IsCorrection, Run, Reconciliation.RepeatsItself;
    BeforeIsReached();
    BeforeIsOk();
    NothingWrong();
    Relations();
    Insertion();
    NothingLost();
    ReconciledReports(Inserted, {0}, {0}, 1);
    ReconciledRow(Inserted, {0}, {0}, 1, 0);
    ReconciledRow(Inserted, {0}, {0}, 1, 1);
    ItRepeats();
  }

  lemma UnderivedStays(b: Book, roots: set<MemoryId>, x: MemoryId)
    requires x in b.memories && b.memories[x].parents == {}
    ensures !Descends(b, roots, None, x)
  {
    forall path | IsPath(b, roots, None, path) ensures path[|path| - 1] != x { assert path[|path| - 2] in b.memories[path[|path| - 1]].parents; }
  }

  lemma ItRepeats()
    ensures Reconciliation.RepeatsItself(Before, Shown, Again)
  {
    hide Equivalent;
    Relations();
    NothingWrong();
    UnderivedStays(Before, Reconciliation.Touched(Before, Shown, Again), 0);
    assert 0 in Again.targets;
  }
}
