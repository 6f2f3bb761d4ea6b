/** When a change leaves one current memory for what it says, and when it leaves several. */
module Reconciliation {
  import opened Wrappers
  import opened Ledger
  import opened LedgerProofs
  import opened Derivation

  /** The older memories that the change marks by itself. */
  function Touched(b: Book, r: Request, c: Change): set<MemoryId> { Superseded(b, r, c) + Contradicted(b, r, c) }

  /** The owner sends a correction that is no true one for a memory that says the same and does not fall with another one. */
  ghost predicate RepeatsItself(b: Book, r: Request, c: Change) {
    && c.operation == Correct && !IsCorrection(b, c)
    && exists t :: t in c.targets && t in Equivalent(b, r.owner, c.meaning) && !Descends(b, Touched(b, r, c), None, t)
  }

  /** Paths between older rows are the same with the new row in place. */
  lemma SameDescent(b: Book, inserted: Book, roots: set<MemoryId>, id: MemoryId, x: MemoryId)
    requires id !in b.memories && inserted.memories.Keys == b.memories.Keys + {id} && forall y :: y in b.memories ==> inserted.memories[y] == b.memories[y]
    requires id !in roots && x in b.memories
    ensures Descends(inserted, roots, Some(id), x) <==> Descends(b, roots, None, x)
  {
    if path :| IsPath(inserted, roots, Some(id), path) && path[|path| - 1] == x { assert IsPath(b, roots, None, path); }
    if path :| IsPath(b, roots, None, path) && path[|path| - 1] == x { assert IsPath(inserted, roots, Some(id), path); }
  }

  /** What an accepted change does to an older row. */
  lemma OldRow(b: Book, r: Request, c: Change, id: MemoryId, x: MemoryId)
    requires Ok(b) && Bound(b, r) && SaveChange(b, r, c, id).Saved? && x in b.memories
    ensures id !in b.memories && ChangeProblem(b, r, c).Pass? && x in SaveChange(b, r, c, id).book.memories
    ensures SaveChange(b, r, c, id).book.memories[x] == b.memories[x].(status :=
      if Descends(b, Touched(b, r, c), None, x) then INVALID else if x in Contradicted(b, r, c) then CONFLICT
      else if x in Superseded(b, r, c) then SUPERSEDED else b.memories[x].status)
  {
    hide Reconciled, Descends, ChangeProblem, NewStatus, Superseded, Contradicted, Lineage, Inherited, RefsOf, Ok;
    ChangeFacts(b, r, c);
    EvidenceIsStored(b, r, c.sources);
    var inserted := Insert(b, r.owner, id, c.text, RefsOf(b, c.sources) + Inherited(b, Lineage(b, r, c)), Some(c.meaning), Lineage(b, r, c), NewStatus(b, r, c)).book;
    ReconciledRow(inserted, Superseded(b, r, c), Contradicted(b, r, c), id, x);
    SameDescent(b, inserted, Touched(b, r, c), id, x);
  }

  /** The new row stays as it was inserted. */
  lemma NewRow(b: Book, r: Request, c: Change, id: MemoryId)
    requires Ok(b) && Bound(b, r) && SaveChange(b, r, c, id).Saved?
    ensures var b' := SaveChange(b, r, c, id).book;
      && b'.memories.Keys == b.memories.Keys + {id} && b'.memories[id].owner == r.owner && b'.memories[id].meaning == Some(c.meaning) && Held(b'.memories[id].status)
  {
    hide Reconciled, ChangeProblem, NewStatus, Superseded, Contradicted, Lineage, Inherited, RefsOf, Ok;
    ChangeFacts(b, r, c);
    EvidenceIsStored(b, r, c.sources);
    var inserted := Insert(b, r.owner, id, c.text, RefsOf(b, c.sources) + Inherited(b, Lineage(b, r, c)), Some(c.meaning), Lineage(b, r, c), NewStatus(b, r, c)).book;
    ReconciledRow(inserted, Superseded(b, r, c), Contradicted(b, r, c), id, id);
    assert id !in Descendants(inserted, Superseded(b, r, c) + Contradicted(b, r, c), Some(id));
    assert NewStatus(b, r, c) == ACTIVE || NewStatus(b, r, c) == CONFLICT by { StatusOfNew(b, r, c); }
  }

  lemma StatusOfNew(b: Book, r: Request, c: Change)
    ensures Held(NewStatus(b, r, c))
  {
  }

  /** An older memory that says the same stays held if and only if the change, without correcting it, names it as a target, and it does
      not fall with another memory. */
  lemma EquivalentStays(b: Book, r: Request, c: Change, id: MemoryId, x: MemoryId)
    requires Ok(b) && Bound(b, r) && SaveChange(b, r, c, id).Saved? && x in b.memories
    ensures x in Equivalent(SaveChange(b, r, c, id).book, r.owner, c.meaning) <==>
      x in Equivalent(b, r.owner, c.meaning) && c.operation == Correct && !IsCorrection(b, c) && x in c.targets && !Descends(b, Touched(b, r, c), None, x)
  {
    hide SaveChange, Descends, ChangeProblem, IsCorrection, RowsOk, ConflictComplete, RefHolds, SourceHolds;
    OldRow(b, r, c, id, x);
    SaveChangeKeepsOk(b, r, c, id);
    HeldIsCurrent(b, x);
    HeldIsCurrent(SaveChange(b, r, c, id).book, x);
    OldStayHeld(b, r, c, x);
  }

  /** Exactly when the promise of one current record holds: after an accepted change the new memory is the only current one of its owner
      about this subject and key at an overlapping time that says the same, unless the change repeats itself. */
  lemma EquivalentsAreReconciled(b: Book, r: Request, c: Change, id: MemoryId)
    requires Ok(b) && Bound(b, r) && SaveChange(b, r, c, id).Saved?
    ensures id in Equivalent(SaveChange(b, r, c, id).book, r.owner, c.meaning) || !Overlaps(c.meaning, c.meaning)
    ensures Equivalent(SaveChange(b, r, c, id).book, r.owner, c.meaning) - {id} == {} <==> !RepeatsItself(b, r, c)
  {
    hide SaveChange, Descends, IsCorrection, Equivalent, Touched;
    var b' := SaveChange(b, r, c, id).book;
    NewRow(b, r, c, id);
    SaveChangeKeepsOk(b, r, c, id);
    NewIsEquivalent(b', r.owner, c.meaning, id);
    EquivalentsStored(b', r.owner, c.meaning);
    forall x | x in b.memories
      ensures x in Equivalent(b', r.owner, c.meaning) <==>
        x in Equivalent(b, r.owner, c.meaning) && c.operation == Correct && !IsCorrection(b, c) && x in c.targets && !Descends(b, Touched(b, r, c), None, x)
    {
      EquivalentStays(b, r, c, id, x);
    }
    EquivalentsStored(b, r.owner, c.meaning);
    NotYetStored(b, r, c, id);
  }

  lemma NewIsEquivalent(b: Book, owner: Owner, meaning: Meaning, id: MemoryId)
    requires Ok(b) && id in b.memories && b.memories[id].owner == owner && b.memories[id].meaning == Some(meaning) && Held(b.memories[id].status)
    ensures Overlaps(meaning, meaning) ==> id in Equivalent(b, owner, meaning)
  {
    HeldIsCurrent(b, id);
  }

  lemma EquivalentsStored(b: Book, owner: Owner, meaning: Meaning)
    ensures Equivalent(b, owner, meaning) <= b.memories.Keys
  {
  }

  lemma NotYetStored(b: Book, r: Request, c: Change, id: MemoryId)
    requires SaveChange(b, r, c, id).Saved?
    ensures id !in b.memories
  {
  }

  /** What an accepted `correct` does to each of its targets: one that derives from another memory that the change marks is invalidated;
      of the others a true correction supersedes all, and any other correction contests all, also those that say the same. */
  lemma TargetsOfCorrect(b: Book, r: Request, c: Change, id: MemoryId, t: MemoryId)
    requires Ok(b) && Bound(b, r) && SaveChange(b, r, c, id).Saved? && c.operation == Correct && t in c.targets
    ensures t in b.memories && t in SaveChange(b, r, c, id).book.memories
    ensures SaveChange(b, r, c, id).book.memories[t].status ==
      if Descends(b, Touched(b, r, c), None, t) then INVALID else if IsCorrection(b, c) then SUPERSEDED else CONFLICT
  {
    hide SaveChange, Descends, IsCorrection, Ok, Matching, Equivalent;
    assert ChangeProblem(b, r, c).Pass? by { SavedIsValid(b, r, c, id); }
    ChangeFacts(b, r, c);
    OldRow(b, r, c, id, t);
  }
}
