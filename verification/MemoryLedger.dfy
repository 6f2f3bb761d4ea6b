/** The memory ledger as an object over its tables, proved against Ledger. */
module MemoryLedger {
  import opened Wrappers
  import opened Ledger
  import opened LedgerProofs

  class Tables {
    var owners: map<Owner, SessionId>
    var messages: map<MessageId, Message>
    var memories: map<MemoryId, Memory>
    var counters: map<Owner, nat>

    function Book(): Book
      reads this
    {
      Ledger.Book(owners, messages, memories, counters)
    }

    ghost predicate Valid()
      reads this
    {
      Ok(Book())
    }

    /** The transaction either committed the book that `out` holds and returned what it invalidated, or rolled back. */
    ghost predicate Did(out: Result, r: Check, lost: set<MemoryId>, was: Book)
      reads this
    {
      match out
      case Saved(b, invalidated) => r.Pass? && Book() == b && lost == invalidated
      case Refused(code) => r == Fail(code) && Book() == was
    }

    constructor ()
      ensures Valid() && Book() == Blank
    {
      owners, messages, memories, counters := map[], map[], map[], map[];
      new;
      BlankIsOk();
    }

    method SetStatus(ids: set<MemoryId>, status: Status)
      requires ids <= memories.Keys
      modifies this`memories
      ensures Book() == Marked(old(Book()), ids, status)
    {
      ghost var was := memories;
      var todo := ids;
      while todo != {}
        invariant todo <= ids <= memories.Keys && memories.Keys == was.Keys
        invariant forall m :: m in was ==> memories[m] == if m in ids - todo then was[m].(status := status) else was[m]
        decreases todo
      {
        var id :| id in todo;
        todo := todo - {id};
        memories := memories[id := memories[id].(status := status)];
      }
      assert memories == Marked(old(Book()), ids, status).memories;
    }

    /** The recursive query: rows are added until no edge leads out of the set. */
    method Closure(roots: set<MemoryId>, spared: Option<MemoryId>) returns (affected: set<MemoryId>)
      ensures affected == Descendants(Book(), roots, spared)
    {
      ghost var b := Book();
      affected := {};
      var step := set x | x in memories && spared != Some(x) && x !in affected && memories[x].parents * (roots + affected) != {};
      while step != {}
        invariant affected <= memories.Keys && step <= memories.Keys && step !! affected
        invariant forall x :: x in step ==> spared != Some(x) && memories[x].parents * (roots + affected) != {}
        invariant forall x :: x in memories && spared != Some(x) && x !in affected && memories[x].parents * (roots + affected) != {} ==> x in step
        invariant forall x :: x in affected ==> Descends(b, roots, spared, x)
        decreases memories.Keys - affected
      {
        forall x | x in step ensures Descends(b, roots, spared, x) { OneStepFurther(b, roots, spared, affected, x); }
        affected := affected + step;
        step := set x | x in memories && spared != Some(x) && x !in affected && memories[x].parents * (roots + affected) != {};
      }
      forall x | x in Descendants(b, roots, spared) ensures x in affected {
        var path :| IsPath(b, roots, spared, path) && path[|path| - 1] == x;
        ClosedContainsPaths(b, roots, spared, affected, path);
      }
    }

    method InvalidateDescendants(parents: set<MemoryId>, spared: MemoryId) returns (rows: set<MemoryId>)
      modifies this`memories
      ensures rows == Descendants(old(Book()), parents, Some(spared))
      ensures Book() == Marked(old(Book()), rows, INVALID)
    {
      rows := Closure(parents, Some(spared));
      SetStatus(rows, INVALID);
    }

    method AddRow(owner: Owner, id: MemoryId, text: Phrase, refs: set<Ref>, meaning: Option<Meaning>, parents: set<MemoryId>, status: Status) returns (r: Check)
      modifies this
      ensures Did(Insert(old(Book()), owner, id, text, refs, meaning, parents, status), r, {}, old(Book()))
    {
      if |refs| > 64 { return Fail(MEMORY_EVIDENCE_CAPACITY); }
      if owner !in counters { return Fail(UNKNOWN_OWNER); }
      if id in memories { return Fail(PRIMARY_KEY); }
      counters := counters[owner := counters[owner] + 1];
      memories := memories[id := Memory(owner, text, Cited(refs), refs, meaning, status, counters[owner], parents)];
      r := Pass;
    }

    method AddNote(req: Request, note: Note, id: MemoryId) returns (r: Check)
      modifies this
      ensures Did(SaveNote(old(Book()), req, note, id), r, {}, old(Book()))
    {
      r := EvidenceProblem(Book(), req, note.sources);
      if r.Fail? { return; }
      EvidenceIsStored(Book(), req, note.sources);
      if m :| m in memories && SameNote(Book(), req.owner, note, m) { return; }
      r := AddRow(req.owner, id, note.text, RefsOf(Book(), note.sources), None, {}, ACTIVE);
    }

    method ApplyChange(req: Request, c: Change, id: MemoryId) returns (r: Check, lost: set<MemoryId>)
      modifies this
      ensures Did(SaveChange(old(Book()), req, c, id), r, lost, old(Book()))
    {
      hide Matching, Equivalent, Conflicts, IsCorrection, Descendants, Marked, TargetProblem, EvidenceProblem, SubjectProblem, ObservedProblem, Inherited, RefsOf, Superseded, Contradicted, Lineage, NewStatus;
      ghost var was := Book();
      lost := {};
      r := ChangeProblem(Book(), req, c);
      if r.Fail? { return; }
      ChangeFacts(was, req, c);
      EvidenceIsStored(was, req, c.sources);
      RelatedAreStored(was, req, c);
      var lineage := Lineage(Book(), req, c);
      var superseded, contradicted := Superseded(Book(), req, c), Contradicted(Book(), req, c);
      r := AddRow(req.owner, id, c.text, RefsOf(Book(), c.sources) + Inherited(Book(), lineage), Some(c.meaning), lineage, NewStatus(Book(), req, c));
      if r.Fail? { return; }
      ghost var inserted := Book();
      SetStatus(superseded, SUPERSEDED);
      MarkingKeepsKeys(inserted, superseded, SUPERSEDED);
      SetStatus(contradicted, CONFLICT);
      MarkingKeepsPaths(inserted, superseded, SUPERSEDED, superseded + contradicted, Some(id));
      MarkingKeepsPaths(Marked(inserted, superseded, SUPERSEDED), contradicted, CONFLICT, superseded + contradicted, Some(id));
      var rows := InvalidateDescendants(superseded + contradicted, id);
      lost := superseded + contradicted + rows;
    }

    /** A memory result: all of its notes, then all of its changes, or nothing. */
    method Save(req: Request, notes: seq<Note>, changes: seq<Change>, ids: seq<MemoryId>) returns (r: Check, lost: set<MemoryId>)
      requires Valid() && Bound(Book(), req) && |ids| >= |notes| + |changes|
      modifies this
      ensures Valid()
      ensures Did(Ledger.Save(old(Book()), req, notes, changes, ids), r, lost, old(Book()))
    {
      hide Ok, SaveNote, SaveChange;
      ghost var was := Book();
      SaveKeepsOk(was, req, notes, changes, ids);
      var savedMemories, savedCounters, savedOwners, savedMessages := memories, counters, owners, messages;
      r := AddNotes(req, notes, ids);
      if r.Fail? {
        memories, counters, owners, messages := savedMemories, savedCounters, savedOwners, savedMessages;
        return r, {};
      }
      r, lost := ApplyChanges(req, changes, ids[|notes|..]);
      if r.Fail? {
        memories, counters, owners, messages := savedMemories, savedCounters, savedOwners, savedMessages;
      }
    }

    method AddNotes(req: Request, notes: seq<Note>, ids: seq<MemoryId>) returns (r: Check)
      requires |ids| >= |notes|
      modifies this
      ensures match SaveNotes(old(Book()), req, notes, ids)
        case Saved(b, invalidated) => r.Pass? && Book() == b && invalidated == {}
        case Refused(code) => r == Fail(code)
    {
      hide SaveNote;
      ghost var was := Book();
      var i := 0;
      assert notes[..0] == [];
      while i < |notes|
        invariant i <= |notes| && SaveNotes(was, req, notes[..i], ids) == Saved(Book(), {})
      {
        ghost var before := Book();
        r := AddNote(req, notes[i], ids[i]);
        assert notes[..i + 1][..i] == notes[..i];
        if r.Fail? { RefusedNotesStayRefused(was, req, notes, i + 1, ids); return; }
        SaveNoteFrame(before, req, notes[i], ids[i]);
        i := i + 1;
      }
      assert notes[..i] == notes;
      r := Pass;
    }

    method ApplyChanges(req: Request, changes: seq<Change>, ids: seq<MemoryId>) returns (r: Check, lost: set<MemoryId>)
      requires |ids| >= |changes|
      modifies this
      ensures match SaveChanges(old(Book()), req, changes, ids)
        case Saved(b, invalidated) => r.Pass? && Book() == b && lost == invalidated
        case Refused(code) => r == Fail(code)
    {
      hide SaveChange;
      ghost var was := Book();
      var i := 0;
      lost := {};
      assert changes[..0] == [];
      while i < |changes|
        invariant i <= |changes| && SaveChanges(was, req, changes[..i], ids) == Saved(Book(), lost)
      {
        var more;
        r, more := ApplyChange(req, changes[i], ids[i]);
        assert changes[..i + 1][..i] == changes[..i];
        if r.Fail? { RefusedChangesStayRefused(was, req, changes, i + 1, ids); return; }
        lost := lost + more;
        i := i + 1;
      }
      assert changes[..i] == changes;
      r := Pass;
    }

    method Invalidate(session: SessionId, m: MessageId) returns (rows: set<MemoryId>)
      modifies this`memories
      ensures Saved(Book(), rows) == InvalidateMessage(old(Book()), session, m)
    {
      var citing := set id | id in memories && m in memories[id].sources && memories[id].owner in owners && owners[memories[id].owner] == session;
      assert citing == Citing(Book(), session, m);
      var derived := Closure(citing, None);
      rows := citing + derived;
      SetStatus(rows, INVALID);
    }

    /** An edit or deletion of a stored message and its effect on the ledger. */
    method EditMessage(m: MessageId, revision: nat, deleted: bool) returns (rows: set<MemoryId>)
      requires Valid() && m in messages && revision > messages[m].revision
      modifies this
      ensures Valid()
      ensures Saved(Book(), rows) == ChangeMessage(old(Book()), m, revision, deleted)
      ensures rows == Citing(old(Book()), old(messages)[m].session, m)
    {
      hide Ok, Descendants;
      ChangeMessageKeepsOk(Book(), m, revision, deleted);
      OkRows(Book());
      EditedClosure(Book(), m, revision, deleted);
      messages := messages[m := messages[m].(revision := revision, deleted := deleted)];
      rows := Invalidate(messages[m].session, m);
    }
  }

  lemma OkRows(b: Book)
    requires Ok(b)
    ensures RowsOk(b)
  {
  }

  lemma {:induction false} RefusedNotesStayRefused(b: Book, r: Request, notes: seq<Note>, i: nat, ids: seq<MemoryId>)
    requires |ids| >= |notes| && i <= |notes| && SaveNotes(b, r, notes[..i], ids).Refused?
    ensures SaveNotes(b, r, notes, ids) == SaveNotes(b, r, notes[..i], ids)
    decreases |notes|
  {
    hide SaveNote;
    if i < |notes| {
      var front := notes[..|notes| - 1];
      assert front[..i] == notes[..i];
      RefusedNotesStayRefused(b, r, front, i, ids);
      assert SaveNotes(b, r, front, ids).Refused?;
    } else {
      assert notes[..i] == notes;
    }
  }

  lemma {:induction false} RefusedChangesStayRefused(b: Book, r: Request, changes: seq<Change>, i: nat, ids: seq<MemoryId>)
    requires |ids| >= |changes| && i <= |changes| && SaveChanges(b, r, changes[..i], ids).Refused?
    ensures SaveChanges(b, r, changes, ids) == SaveChanges(b, r, changes[..i], ids)
    decreases |changes|
  {
    hide SaveChange;
    if i < |changes| {
      var front := changes[..|changes| - 1];
      assert front[..i] == changes[..i];
      RefusedChangesStayRefused(b, r, front, i, ids);
      assert SaveChanges(b, r, front, ids).Refused?;
    } else {
      assert changes[..i] == changes;
    }
  }

  lemma RelatedAreStored(b: Book, r: Request, c: Change)
    requires ChangeProblem(b, r, c).Pass?
    ensures Superseded(b, r, c) <= b.memories.Keys && Contradicted(b, r, c) <= b.memories.Keys
  {
    ChangeFacts(b, r, c);
  }

  lemma MarkingKeepsKeys(b: Book, ids: set<MemoryId>, status: Status)
    ensures Marked(b, ids, status).memories.Keys == b.memories.Keys
  {
  }

  lemma MarkingKeepsPaths(b: Book, ids: set<MemoryId>, status: Status, roots: set<MemoryId>, spared: Option<MemoryId>)
    ensures Descendants(Marked(b, ids, status), roots, spared) == Descendants(b, roots, spared)
  {
    var b' := Marked(b, ids, status);
    forall x | x in b.memories ensures Descends(b', roots, spared, x) <==> Descends(b, roots, spared, x) {
      forall path ensures IsPath(b', roots, spared, path) <==> IsPath(b, roots, spared, path) {}
    }
  }

  lemma OneStepFurther(b: Book, roots: set<MemoryId>, spared: Option<MemoryId>, affected: set<MemoryId>, x: MemoryId)
    requires x in b.memories && spared != Some(x) && b.memories[x].parents * (roots + affected) != {}
    requires forall y :: y in affected ==> Descends(b, roots, spared, y)
    ensures Descends(b, roots, spared, x)
  {
    var p :| p in b.memories[x].parents && p in roots + affected;
    if p in roots {
      assert IsPath(b, roots, spared, [p, x]);
    } else {
      var path :| IsPath(b, roots, spared, path) && path[|path| - 1] == p;
      assert IsPath(b, roots, spared, path + [x]) && (path + [x])[|path + [x]| - 1] == x;
    }
  }

  lemma {:induction false} ClosedContainsPaths(b: Book, roots: set<MemoryId>, spared: Option<MemoryId>, closed: set<MemoryId>, path: seq<MemoryId>)
    requires forall x :: x in b.memories && spared != Some(x) && b.memories[x].parents * (roots + closed) != {} ==> x in closed
    requires IsPath(b, roots, spared, path)
    ensures path[|path| - 1] in closed
    decreases |path|
  {
    var n := |path| - 1;
    if n > 1 {
      assert IsPath(b, roots, spared, path[..n]);
      ClosedContainsPaths(b, roots, spared, closed, path[..n]);
    }
    assert path[n - 1] in b.memories[path[n]].parents * (roots + closed);
  }
}
