/** What every result and every edit keeps in the memory ledger. */
module LedgerProofs {
  import opened Wrappers
  import opened Ledger

  predicate Held(s: Status) { s == ACTIVE || s == CONFLICT }

  ghost predicate EvidenceOk(b: Book, owner: Owner, e: Ref) {
    && owner in b.owners && e.message in b.messages && b.messages[e.message].session == b.owners[owner]
    && e.version <= b.messages[e.message].revision
    && (e.version == b.messages[e.message].revision ==> !b.messages[e.message].deleted)
  }

  /** Edges lead from an earlier to a later memory of the same owner, which also carries the earlier one's evidence. */
  ghost predicate EdgeOk(b: Book, parent: MemoryId, child: Memory) {
    && parent in b.memories && b.memories[parent].owner == child.owner
    && b.memories[parent].sequence < child.sequence && b.memories[parent].evidence <= child.evidence
  }

  ghost predicate RowOk(b: Book, m: Memory) {
    && m.owner in b.owners && m.owner in b.counters && 0 < m.sequence <= b.counters[m.owner]
    && m.sources == Cited(m.evidence)
    && (forall e :: e in m.evidence ==> EvidenceOk(b, m.owner, e))
    && (forall p :: p in m.parents ==> EdgeOk(b, p, m))
    && (Held(m.status) ==> forall e :: e in m.evidence ==> RefHolds(b, e))
  }

  ghost predicate RowsOk(b: Book) { forall id :: id in b.memories ==> RowOk(b, b.memories[id]) }

  ghost predicate Clash(b: Book, x: MemoryId, y: MemoryId) {
    && x != y && x in b.memories && y in b.memories && b.memories[x].owner == b.memories[y].owner
    && b.memories[x].meaning.Some? && b.memories[y].meaning.Some?
    && SameMeaning(b.memories[x].meaning.value, b.memories[y].meaning.value) && Overlaps(b.memories[x].meaning.value, b.memories[y].meaning.value)
  }

  /** Two interpretations of the same matter at the same time that are both still held are both marked as contested. */
  ghost predicate ConflictComplete(b: Book) {
    forall x, y :: Clash(b, x, y) && Held(b.memories[x].status) && Held(b.memories[y].status) ==>
      b.memories[x].status == CONFLICT && b.memories[y].status == CONFLICT
  }

  ghost predicate Ok(b: Book) { RowsOk(b) && ConflictComplete(b) }

  /** The status alone tells whether a memory still holds: nothing held has lost its evidence. */
  lemma HeldIsCurrent(b: Book, id: MemoryId)
    requires RowsOk(b) && id in b.memories
    ensures Current(b, id) <==> Held(b.memories[id].status)
  {
    var m := b.memories[id];
    assert RowOk(b, m);
    if Held(m.status) {
      forall s | s in m.sources ensures SourceHolds(b, m.owner, s) {
        var e :| e in m.evidence && e.message == s;
        assert EvidenceOk(b, m.owner, e) && RefHolds(b, e);
      }
    }
  }

  lemma HeldAreCurrent(b: Book)
    requires RowsOk(b)
    ensures forall id :: id in b.memories ==> (Current(b, id) <==> Held(b.memories[id].status))
  {
    forall id | id in b.memories ensures Current(b, id) <==> Held(b.memories[id].status) { HeldIsCurrent(b, id); }
  }

  // ---------------------------------------------------------------- marking

  lemma MarkedKeepsRows(b: Book, ids: set<MemoryId>, status: Status)
    requires RowsOk(b) && (Held(status) ==> forall id :: id in ids && id in b.memories ==> forall e :: e in b.memories[id].evidence ==> RefHolds(b, e))
    ensures RowsOk(Marked(b, ids, status))
  {
    var b' := Marked(b, ids, status);
    forall id | id in b'.memories ensures RowOk(b', b'.memories[id]) {
      var m, m' := b.memories[id], b'.memories[id];
      assert RowOk(b, m);
      forall p | p in m'.parents ensures EdgeOk(b', p, m') { assert EdgeOk(b, p, m); }
      forall e | e in m'.evidence ensures EvidenceOk(b', m'.owner, e) { assert EvidenceOk(b, m.owner, e); }
      if Held(m'.status) {
        forall e | e in m'.evidence ensures RefHolds(b', e) { assert RefHolds(b, e); }
      }
    }
  }

  // ---------------------------------------------------------------- inserting

  /** What a new row needs: evidence that holds now and parents that hold now and are contained in it. */
  ghost predicate Insertable(b: Book, owner: Owner, refs: set<Ref>, parents: set<MemoryId>) {
    && owner in b.owners
    && (forall e :: e in refs ==> RefHolds(b, e) && b.messages[e.message].session == b.owners[owner])
    && (forall p :: p in parents ==> p in b.memories && b.memories[p].owner == owner && b.memories[p].evidence <= refs)
  }

  lemma InsertKeepsRows(b: Book, owner: Owner, id: MemoryId, text: Phrase, refs: set<Ref>, meaning: Option<Meaning>, parents: set<MemoryId>, status: Status)
    requires RowsOk(b) && Insertable(b, owner, refs, parents)
    ensures var out := Insert(b, owner, id, text, refs, meaning, parents, status); out.Saved? ==> RowsOk(out.book)
  {
    var out := Insert(b, owner, id, text, refs, meaning, parents, status);
    if out.Saved? {
      var b' := out.book;
      forall x | x in b'.memories ensures RowOk(b', b'.memories[x]) {
        if x == id {
          var m := b'.memories[id];
          forall p | p in parents ensures EdgeOk(b', p, m) { assert RowOk(b, b.memories[p]); }
          forall e | e in refs ensures EvidenceOk(b', owner, e) && RefHolds(b', e) {}
        } else {
          var m := b.memories[x];
          assert RowOk(b, m);
          forall p | p in m.parents ensures EdgeOk(b', p, m) { assert EdgeOk(b, p, m); }
          forall e | e in m.evidence ensures EvidenceOk(b', m.owner, e) { assert EvidenceOk(b, m.owner, e); }
          if Held(m.status) { forall e | e in m.evidence ensures RefHolds(b', e) { assert RefHolds(b, e); } }
        }
      }
    }
  }

  /** The session of the request is the session of its owner. */
  predicate Bound(b: Book, r: Request) { r.owner in b.owners && b.owners[r.owner] == r.session }

  lemma OwnEvidenceHolds(b: Book, r: Request, ids: seq<MessageId>)
    requires Bound(b, r) && EvidenceProblem(b, r, ids).Pass?
    ensures forall m :: m in ids ==> m in b.messages
    ensures forall e :: e in RefsOf(b, ids) ==> RefHolds(b, e) && b.messages[e.message].session == b.owners[r.owner]
  {
    forall m | m in ids ensures Supplied(b, r, m) {}
  }

  lemma SaveNoteKeepsOk(b: Book, r: Request, note: Note, id: MemoryId)
    requires Ok(b) && Bound(b, r)
    ensures var out := SaveNote(b, r, note, id); out.Saved? ==> Ok(out.book)
  {
    var out := SaveNote(b, r, note, id);
    if out.Saved? && out.book != b {
      OwnEvidenceHolds(b, r, note.sources);
      InsertKeepsRows(b, r.owner, id, note.text, RefsOf(b, note.sources), None, {}, ACTIVE);
      forall x, y | Clash(out.book, x, y) && Held(out.book.memories[x].status) && Held(out.book.memories[y].status)
        ensures out.book.memories[x].status == CONFLICT && out.book.memories[y].status == CONFLICT
      {
        assert Clash(b, x, y);
      }
    }
  }

  // ---------------------------------------------------------------- changes

  lemma ObservedHold(b: Book, r: Request, ids: seq<MemoryId>)
    requires ObservedProblem(b, r, ids).Pass?
    ensures forall m :: m in ids ==> Current(b, m) && b.memories[m].owner == r.owner
  {
  }

  lemma {:induction false} TargetsCompete(b: Book, r: Request, c: Change, targets: seq<MemoryId>)
    requires TargetProblem(b, c, targets).Pass? && forall m :: m in targets ==> Current(b, m) && b.memories[m].owner == r.owner
    ensures forall t :: t in targets ==> Competes(b, t, r.owner, c.meaning) && (c.operation == Merge ==> SameFrame(b.memories[t].meaning.value, c.meaning))
  {
    if targets != [] { TargetsCompete(b, r, c, targets[1..]); }
  }

  /** Whatever the change names or finds is held, belongs to the owner and is about the same matter at the same time. */
  lemma ChangeFacts(b: Book, r: Request, c: Change)
    requires ChangeProblem(b, r, c).Pass?
    ensures EvidenceProblem(b, r, c.sources).Pass?
    ensures forall p :: p in c.parents ==> Current(b, p) && b.memories[p].owner == r.owner
    ensures forall t :: t in c.targets ==> t in Matching(b, r.owner, c.meaning)
    ensures c.operation == Merge ==> forall t :: t in c.targets ==> t in Equivalent(b, r.owner, c.meaning)
    ensures Superseded(b, r, c) + Contradicted(b, r, c) <= Matching(b, r.owner, c.meaning)
    ensures Lineage(b, r, c) <= Items(c.parents) + Matching(b, r.owner, c.meaning)
  {
    ObservedHold(b, r, c.targets);
    ObservedHold(b, r, c.parents);
    TargetsCompete(b, r, c, c.targets);
  }

  lemma LineageInsertable(b: Book, r: Request, c: Change)
    requires RowsOk(b) && Bound(b, r) && ChangeProblem(b, r, c).Pass?
    ensures (forall m :: m in c.sources ==> m in b.messages) && Insertable(b, r.owner, RefsOf(b, c.sources) + Inherited(b, Lineage(b, r, c)), Lineage(b, r, c))
  {
    ChangeFacts(b, r, c);
    OwnEvidenceHolds(b, r, c.sources);
    var lineage := Lineage(b, r, c);
    forall p | p in lineage ensures Current(b, p) && b.memories[p].owner == r.owner {}
    forall e | e in Inherited(b, lineage) ensures RefHolds(b, e) && b.messages[e.message].session == b.owners[r.owner] {
      var p :| p in lineage && p in b.memories && e in b.memories[p].evidence;
      assert RowOk(b, b.memories[p]) && EvidenceOk(b, b.memories[p].owner, e) && Current(b, p);
    }
  }

  lemma ReconciledKeepsRows(b: Book, superseded: set<MemoryId>, contradicted: set<MemoryId>, id: MemoryId)
    requires RowsOk(b) && forall x :: x in contradicted && x in b.memories ==> Held(b.memories[x].status)
    ensures RowsOk(Reconciled(b, superseded, contradicted, id).book)
  {
    hide Descendants;
    forall x | x in contradicted && x in b.memories ensures forall e :: e in b.memories[x].evidence ==> RefHolds(b, e) { assert RowOk(b, b.memories[x]); }
    MarkedKeepsRows(b, superseded, SUPERSEDED);
    MarkedKeepsRows(Marked(b, superseded, SUPERSEDED), contradicted, CONFLICT);
    MarkedKeepsRows(Marked(Marked(b, superseded, SUPERSEDED), contradicted, CONFLICT), Descendants(b, superseded + contradicted, Some(id)), INVALID);
  }

  /** How a reconciliation treats one row. */
  lemma ReconciledRow(b: Book, superseded: set<MemoryId>, contradicted: set<MemoryId>, id: MemoryId, x: MemoryId)
    requires x in b.memories
    ensures var b', lost := Reconciled(b, superseded, contradicted, id).book, Descendants(b, superseded + contradicted, Some(id));
      && b'.memories.Keys == b.memories.Keys && b'.messages == b.messages && b'.owners == b.owners && b'.counters == b.counters
      && b'.memories[x] == b.memories[x].(status :=
           if x in lost then INVALID else if x in contradicted then CONFLICT else if x in superseded then SUPERSEDED else b.memories[x].status)
  {
    hide Descendants;
  }

  /** Conflict completeness survives a change: everything held that competes with the new memory is contested or replaced. */
  lemma ChangeKeepsConflicts(b: Book, r: Request, c: Change, id: MemoryId)
    requires Ok(b) && Bound(b, r) && SaveChange(b, r, c, id).Saved?
    ensures ConflictComplete(SaveChange(b, r, c, id).book)
  {
    hide Reconciled, Descendants, ChangeProblem, NewStatus, Superseded, Contradicted, Lineage, Inherited, RefsOf, Matching, Equivalent, Conflicts, IsCorrection;
    var superseded, contradicted := Superseded(b, r, c), Contradicted(b, r, c);
    LineageInsertable(b, r, c);
    var inserted := Insert(b, r.owner, id, c.text, RefsOf(b, c.sources) + Inherited(b, Lineage(b, r, c)), Some(c.meaning), Lineage(b, r, c), NewStatus(b, r, c)).book;
    var b' := SaveChange(b, r, c, id).book;
    assert b' == Reconciled(inserted, superseded, contradicted, id).book;
    HeldAreCurrent(b);
    ChangeFacts(b, r, c);
    forall x | x in inserted.memories
      ensures x in b'.memories && (Held(b'.memories[x].status) ==> x !in superseded - contradicted)
      ensures b'.memories[x] == inserted.memories[x].(status := b'.memories[x].status)
      ensures Held(b'.memories[x].status) ==> b'.memories[x].status == if x in contradicted then CONFLICT else inserted.memories[x].status
    {
      ReconciledRow(inserted, superseded, contradicted, id, x);
    }
    ReconciledRow(inserted, superseded, contradicted, id, id);
    forall x, y | Clash(b', x, y) && Held(b'.memories[x].status) && Held(b'.memories[y].status)
      ensures b'.memories[x].status == CONFLICT && b'.memories[y].status == CONFLICT
    {
      if x == id { OldStayHeld(b, r, c, y); ClashWithNewcomer(b, r, c, y); }
      else if y == id { OldStayHeld(b, r, c, x); ClashWithNewcomer(b, r, c, x); }
      else { assert Clash(b, x, y); OldStayHeld(b, r, c, x); OldStayHeld(b, r, c, y); }
    }
  }

  /** A row that is still held afterwards was held before, and was contested if it is not now contested for the first time. */
  lemma OldStayHeld(b: Book, r: Request, c: Change, x: MemoryId)
    requires RowsOk(b) && ChangeProblem(b, r, c).Pass? && x in b.memories
    ensures x in Contradicted(b, r, c) ==> Held(b.memories[x].status)
  {
    ChangeFacts(b, r, c);
    HeldIsCurrent(b, x);
  }

  lemma ClashWithNewcomer(b: Book, r: Request, c: Change, x: MemoryId)
    requires RowsOk(b) && ChangeProblem(b, r, c).Pass? && x in b.memories && b.memories[x].owner == r.owner && b.memories[x].meaning.Some?
    requires SameMeaning(b.memories[x].meaning.value, c.meaning) && Overlaps(b.memories[x].meaning.value, c.meaning)
    requires Held(b.memories[x].status) && x !in Superseded(b, r, c) - Contradicted(b, r, c)
    ensures x in Contradicted(b, r, c) && NewStatus(b, r, c) == CONFLICT
  {
    ChangeFacts(b, r, c);
    HeldIsCurrent(b, x);
    assert x in Matching(b, r.owner, c.meaning);
  }

  lemma SaveChangeKeepsOk(b: Book, r: Request, c: Change, id: MemoryId)
    requires Ok(b) && Bound(b, r)
    ensures var out := SaveChange(b, r, c, id); out.Saved? ==> Ok(out.book)
  {
    hide Reconciled, ConflictComplete, RowsOk, Descendants, Lineage, NewStatus, Superseded, Contradicted, Inherited;
    var out := SaveChange(b, r, c, id);
    if out.Saved? {
      LineageInsertable(b, r, c);
      var refs := RefsOf(b, c.sources) + Inherited(b, Lineage(b, r, c));
      InsertKeepsRows(b, r.owner, id, c.text, refs, Some(c.meaning), Lineage(b, r, c), NewStatus(b, r, c));
      forall x | x in Contradicted(b, r, c) && x in b.memories ensures Held(b.memories[x].status) { OldStayHeld(b, r, c, x); }
      ChangeFacts(b, r, c);
      var inserted := Insert(b, r.owner, id, c.text, refs, Some(c.meaning), Lineage(b, r, c), NewStatus(b, r, c)).book;
      forall x | x in Contradicted(b, r, c) && x in inserted.memories ensures Held(inserted.memories[x].status) {}
      ReconciledKeepsRows(inserted, Superseded(b, r, c), Contradicted(b, r, c), id);
      ChangeKeepsConflicts(b, r, c, id);
    }
  }

  // ---------------------------------------------------------------- a whole result

  lemma {:induction false} SaveNotesKeepsOk(b: Book, r: Request, notes: seq<Note>, ids: seq<MemoryId>)
    requires Ok(b) && Bound(b, r) && |ids| >= |notes|
    ensures var out := SaveNotes(b, r, notes, ids); out.Saved? ==> Ok(out.book) && out.book.owners == b.owners
  {
    hide Ok, SaveNote;
    if notes != [] {
      var k := |notes| - 1;
      SaveNotesKeepsOk(b, r, notes[..k], ids);
      var before := SaveNotes(b, r, notes[..k], ids);
      if before.Saved? {
        SaveNoteKeepsOk(before.book, r, notes[k], ids[k]);
        SaveNoteFrame(before.book, r, notes[k], ids[k]);
      }
    }
  }

  lemma SaveNoteFrame(b: Book, r: Request, note: Note, id: MemoryId)
    ensures var out := SaveNote(b, r, note, id); out.Saved? ==> out.book.owners == b.owners && out.book.messages == b.messages && b.memories.Keys <= out.book.memories.Keys
    ensures var out := SaveNote(b, r, note, id); out.Saved? ==> out.invalidated == {} && forall x :: x in b.memories ==> out.book.memories[x] == b.memories[x]
  {
    hide EvidenceProblem;
    if EvidenceProblem(b, r, note.sources).Pass? { EvidenceIsStored(b, r, note.sources); }
  }

  lemma EvidenceIsStored(b: Book, r: Request, ids: seq<MessageId>)
    requires EvidenceProblem(b, r, ids).Pass?
    ensures forall m :: m in ids ==> m in b.messages
  {
    forall m | m in ids ensures Supplied(b, r, m) {}
  }

  /** What a saved change leaves of the older rows: only statuses change, and only of what it returns as invalidated. */
  lemma SaveChangeFrame(b: Book, r: Request, c: Change, id: MemoryId)
    requires SaveChange(b, r, c, id).Saved?
    ensures var out := SaveChange(b, r, c, id);
      && out.book.owners == b.owners && out.book.messages == b.messages && b.memories.Keys <= out.book.memories.Keys
      && (forall x :: x in b.memories ==> out.book.memories[x] == b.memories[x].(status := out.book.memories[x].status))
      && (forall x :: x in b.memories && x !in out.invalidated ==> out.book.memories[x] == b.memories[x])
      && (forall x :: x in b.memories && Held(out.book.memories[x].status) ==>
            out.book.memories[x].status == b.memories[x].status || x in Contradicted(b, r, c))
  {
    hide Reconciled, Descendants, ChangeProblem, NewStatus, Superseded, Contradicted, Lineage, Inherited, RefsOf;
    ChangeFacts(b, r, c);
    EvidenceIsStored(b, r, c.sources);
    var superseded, contradicted := Superseded(b, r, c), Contradicted(b, r, c);
    var inserted := Insert(b, r.owner, id, c.text, RefsOf(b, c.sources) + Inherited(b, Lineage(b, r, c)), Some(c.meaning), Lineage(b, r, c), NewStatus(b, r, c)).book;
    ReconciledReports(inserted, superseded, contradicted, id);
    var after, lost := SaveChange(b, r, c, id).book, Descendants(inserted, superseded + contradicted, Some(id));
    forall x | x in b.memories
      ensures x in after.memories && after.memories[x] == b.memories[x].(status :=
        if x in lost then INVALID else if x in contradicted then CONFLICT else if x in superseded then SUPERSEDED else b.memories[x].status)
    {
      ReconciledRow(inserted, superseded, contradicted, id, x);
    }
    ReconciledRow(inserted, superseded, contradicted, id, id);
  }

  lemma ReconciledReports(b: Book, superseded: set<MemoryId>, contradicted: set<MemoryId>, id: MemoryId)
    ensures Reconciled(b, superseded, contradicted, id).Saved?
    ensures Reconciled(b, superseded, contradicted, id).invalidated == superseded + contradicted + Descendants(b, superseded + contradicted, Some(id))
  {
  }

  lemma {:induction false} SaveChangesKeepsOk(b: Book, r: Request, changes: seq<Change>, ids: seq<MemoryId>)
    requires Ok(b) && Bound(b, r) && |ids| >= |changes|
    ensures var out := SaveChanges(b, r, changes, ids); out.Saved? ==> Ok(out.book) && out.book.owners == b.owners
  {
    hide Ok, SaveChange;
    if changes != [] {
      var k := |changes| - 1;
      SaveChangesKeepsOk(b, r, changes[..k], ids);
      var before := SaveChanges(b, r, changes[..k], ids);
      if before.Saved? {
        SaveChangeKeepsOk(before.book, r, changes[k], ids[k]);
        if SaveChange(before.book, r, changes[k], ids[k]).Saved? { SaveChangeFrame(before.book, r, changes[k], ids[k]); }
      }
    }
  }

  lemma SaveKeepsOk(b: Book, r: Request, notes: seq<Note>, changes: seq<Change>, ids: seq<MemoryId>)
    requires Ok(b) && Bound(b, r) && |ids| >= |notes| + |changes|
    ensures var out := Save(b, r, notes, changes, ids); out.Saved? ==> Ok(out.book)
  {
    hide Ok;
    SaveNotesKeepsOk(b, r, notes, ids);
    var first := SaveNotes(b, r, notes, ids);
    if first.Saved? { SaveChangesKeepsOk(first.book, r, changes, ids[|notes|..]); }
  }

  // ---------------------------------------------------------------- edits

  /** A descendant carries all evidence of where it comes from. */
  lemma {:induction false} PathCarriesEvidence(b: Book, roots: set<MemoryId>, spared: Option<MemoryId>, path: seq<MemoryId>)
    requires RowsOk(b) && IsPath(b, roots, spared, path) && path[0] in b.memories
    ensures var last := path[|path| - 1];
      && last in b.memories && b.memories[last].owner == b.memories[path[0]].owner
      && b.memories[path[0]].evidence <= b.memories[last].evidence && b.memories[path[0]].sequence < b.memories[last].sequence
    decreases |path|
  {
    var n := |path| - 1;
    assert RowOk(b, b.memories[path[n]]) && path[n - 1] in b.memories[path[n]].parents;
    assert EdgeOk(b, path[n - 1], b.memories[path[n]]);
    if n > 1 {
      var shorter := path[..n];
      assert IsPath(b, roots, spared, shorter);
      PathCarriesEvidence(b, roots, spared, shorter);
    }
  }

  /** No memory descends from itself: derivation always leads to a later one. */
  lemma DerivationIsAcyclic(b: Book, x: MemoryId)
    requires RowsOk(b) && x in b.memories
    ensures !Descends(b, {x}, None, x)
  {
    if Descends(b, {x}, None, x) {
      var path :| IsPath(b, {x}, None, path) && path[|path| - 1] == x;
      PathCarriesEvidence(b, {x}, None, path);
      assert false;
    }
  }

  /** For the memories of the ledger the recursive closure is flat: what descends from a memory that cites the message cites it too. */
  lemma ClosureIsFlat(b: Book, session: SessionId, m: MessageId)
    requires RowsOk(b)
    ensures Affected(b, session, m) == Citing(b, session, m)
  {
    var citing := Citing(b, session, m);
    forall x | x in Descendants(b, citing, None) ensures x in citing {
      var path :| IsPath(b, citing, None, path) && path[|path| - 1] == x;
      PathCarriesEvidence(b, citing, None, path);
      assert RowOk(b, b.memories[path[0]]) && RowOk(b, b.memories[x]);
      var e :| e in b.memories[path[0]].evidence && e.message == m;
      assert e in b.memories[x].evidence;
    }
  }

  /** The message table with one row changed, before the ledger has been told. */
  function Edited(b: Book, m: MessageId, revision: nat, deleted: bool): Book
    requires m in b.messages
  {
    b.(messages := b.messages[m := b.messages[m].(revision := revision, deleted := deleted)])
  }

  /** An edit invalidates exactly the held memories that cite the message. These are at the same time exactly the ones that
      the version predicate alone would stop showing: no stale memory is missed and none is invalidated needlessly. */
  lemma EditInvalidatesExactly(b: Book, m: MessageId, revision: nat, deleted: bool, id: MemoryId)
    requires Ok(b) && m in b.messages && revision > b.messages[m].revision && id in b.memories
    ensures var after := ChangeMessage(b, m, revision, deleted).book;
      && (Current(after, id) <==> Current(b, id) && m !in b.memories[id].sources)
      && (Current(b, id) && !Current(Edited(b, m, revision, deleted), id) <==> Current(b, id) && m in b.memories[id].sources)
  {
    hide ConflictComplete, Descendants;
    var x := b.memories[id];
    assert RowOk(b, x);
    EditedClosure(b, m, revision, deleted);
    ChangeKeepsRows(b, m, revision, deleted);
    HeldIsCurrent(b, id);
    HeldIsCurrent(ChangeMessage(b, m, revision, deleted).book, id);
    if m in x.sources {
      var e :| e in x.evidence && e.message == m;
      assert EvidenceOk(b, x.owner, e);
      assert !RefHolds(Edited(b, m, revision, deleted), e);
    } else {
      forall e | e in x.evidence ensures RefHolds(Edited(b, m, revision, deleted), e) <==> RefHolds(b, e) {}
    }
  }

  lemma EditedClosure(b: Book, m: MessageId, revision: nat, deleted: bool)
    requires RowsOk(b) && m in b.messages
    ensures Affected(Edited(b, m, revision, deleted), b.messages[m].session, m) == Citing(b, b.messages[m].session, m)
    ensures forall id :: id in b.memories && m in b.memories[id].sources ==> id in Citing(b, b.messages[m].session, m)
  {
    var b1 := Edited(b, m, revision, deleted);
    var session := b.messages[m].session;
    var citing := Citing(b, session, m);
    assert Citing(b1, session, m) == citing;
    forall x | x in Descendants(b1, citing, None) ensures x in citing {
      var path :| IsPath(b1, citing, None, path) && path[|path| - 1] == x;
      assert IsPath(b, citing, None, path);
      assert x in Descendants(b, citing, None);
      ClosureIsFlat(b, session, m);
    }
    forall id | id in b.memories && m in b.memories[id].sources ensures id in citing {
      assert RowOk(b, b.memories[id]);
      var e :| e in b.memories[id].evidence && e.message == m;
      assert EvidenceOk(b, b.memories[id].owner, e);
    }
  }

  lemma ChangeKeepsRows(b: Book, m: MessageId, revision: nat, deleted: bool)
    requires RowsOk(b) && m in b.messages && revision > b.messages[m].revision
    ensures RowsOk(ChangeMessage(b, m, revision, deleted).book)
  {
    hide Descendants;
    EditedClosure(b, m, revision, deleted);
    var b' := ChangeMessage(b, m, revision, deleted).book;
    forall id | id in b'.memories ensures RowOk(b', b'.memories[id]) {
      var x, x' := b.memories[id], b'.memories[id];
      assert RowOk(b, x);
      forall p | p in x'.parents ensures EdgeOk(b', p, x') { assert EdgeOk(b, p, x); }
      forall e | e in x'.evidence ensures EvidenceOk(b', x'.owner, e) { assert EvidenceOk(b, x.owner, e); }
      if Held(x'.status) {
        forall e | e in x'.evidence ensures RefHolds(b', e) { assert RefHolds(b, e) && e.message in x.sources; }
      }
    }
  }

  lemma ChangeMessageKeepsOk(b: Book, m: MessageId, revision: nat, deleted: bool)
    requires Ok(b) && m in b.messages && revision > b.messages[m].revision
    ensures Ok(ChangeMessage(b, m, revision, deleted).book)
  {
    ChangeKeepsRows(b, m, revision, deleted);
    var b' := ChangeMessage(b, m, revision, deleted).book;
    forall x, y | Clash(b', x, y) && Held(b'.memories[x].status) && Held(b'.memories[y].status)
      ensures b'.memories[x].status == CONFLICT && b'.memories[y].status == CONFLICT
    {
      assert Clash(b, x, y);
    }
  }

  // ---------------------------------------------------------------- histories of the ledger

  /** Everything that reaches the ledger: a model's result, a new message, an edit or deletion, and a new owner. */
  datatype Event =
    | Result(request: Request, notes: seq<Note>, changes: seq<Change>, ids: seq<MemoryId>)
    | Posted(message: MessageId, row: Message)
    | Changed(message: MessageId, revision: nat, deleted: bool)
    | Joined(owner: Owner, session: SessionId)

  /** Events that the service would not issue, and results that it refuses, change nothing. */
  ghost function Next(b: Book, e: Event): Book {
    match e
    case Result(r, notes, changes, ids) =>
      if !Bound(b, r) || |ids| < |notes| + |changes| then b
      else var out := Save(b, r, notes, changes, ids); if out.Saved? then out.book else b
    case Posted(m, row) => if m in b.messages || row.deleted then b else b.(messages := b.messages[m := row])
    case Changed(m, revision, deleted) =>
      if m !in b.messages || b.messages[m].deleted || revision <= b.messages[m].revision then b else ChangeMessage(b, m, revision, deleted).book
    case Joined(owner, session) =>
      if owner in b.owners || owner in b.counters then b else b.(owners := b.owners[owner := session], counters := b.counters[owner := 0])
  }

  lemma AddingKeepsOk(b: Book, e: Event)
    requires Ok(b) && (e.Posted? || e.Joined?)
    ensures Ok(Next(b, e))
  {
    var b' := Next(b, e);
    forall id | id in b'.memories ensures RowOk(b', b'.memories[id]) {
      var m := b.memories[id];
      assert RowOk(b, m);
      forall p | p in m.parents ensures EdgeOk(b', p, m) { assert EdgeOk(b, p, m); }
      forall x | x in m.evidence ensures EvidenceOk(b', m.owner, x) { assert EvidenceOk(b, m.owner, x); }
      if Held(m.status) { forall x | x in m.evidence ensures RefHolds(b', x) { assert RefHolds(b, x); } }
    }
    forall x, y | Clash(b', x, y) && Held(b'.memories[x].status) && Held(b'.memories[y].status)
      ensures b'.memories[x].status == CONFLICT && b'.memories[y].status == CONFLICT { assert Clash(b, x, y); }
  }

  lemma NextKeepsOk(b: Book, e: Event)
    requires Ok(b)
    ensures Ok(Next(b, e))
  {
    hide Ok, Save, ChangeMessage;
    match e
    case Result(r, notes, changes, ids) => if Bound(b, r) && |ids| >= |notes| + |changes| { SaveKeepsOk(b, r, notes, changes, ids); }
    case Posted(_, _) => AddingKeepsOk(b, e);
    case Changed(m, revision, deleted) => if m in b.messages && revision > b.messages[m].revision { ChangeMessageKeepsOk(b, m, revision, deleted); }
    case Joined(_, _) => AddingKeepsOk(b, e);
  }

  ghost function Run(b: Book, events: seq<Event>): Book
    decreases |events|
  {
    if events == [] then b else Run(Next(b, events[0]), events[1..])
  }

  lemma {:induction false} RunKeepsOk(b: Book, events: seq<Event>)
    requires Ok(b)
    ensures Ok(Run(b, events))
    decreases |events|
  {
    hide Ok, Next;
    if events != [] {
      NextKeepsOk(b, events[0]);
      RunKeepsOk(Next(b, events[0]), events[1..]);
    }
  }

  lemma {:induction false} RunContinues(b: Book, before: seq<Event>, after: seq<Event>)
    ensures Run(b, before + after) == Run(Run(b, before), after)
    decreases |before|
  {
    hide Next;
    if before == [] {
      assert before + after == after;
    } else {
      RunContinues(Next(b, before[0]), before[1..], after);
      assert (before + after)[1..] == before[1..] + after;
    }
  }

  const Blank: Book := Book(map[], map[], map[], map[])

  /** In every reachable ledger, any two held interpretations of one owner about the same subject and key at overlapping times
      are both contested, and held means exactly what the shared predicate shows. */
  lemma {:induction false} EveryClashIsContested(events: seq<Event>, x: MemoryId, y: MemoryId)
    ensures var b := Run(Blank, events);
      Clash(b, x, y) && Current(b, x) && Current(b, y) ==> b.memories[x].status == CONFLICT && b.memories[y].status == CONFLICT
  {
    hide RowsOk, Run;
    BlankIsOk();
    RunKeepsOk(Blank, events);
    var b := Run(Blank, events);
    if Clash(b, x, y) {
      HeldIsCurrent(b, x);
      HeldIsCurrent(b, y);
    }
  }

  lemma BlankIsOk()
    ensures Ok(Blank)
  {
  }

  // ---------------------------------------------------------------- no resurrection

  /** Between two books: no row disappears and what was not held is still not held. */
  ghost predicate NoneReturns(b: Book, b': Book) {
    b.memories.Keys <= b'.memories.Keys && forall id :: id in b.memories && !Held(b.memories[id].status) ==> !Held(b'.memories[id].status)
  }

  lemma SaveChangeRevivesNothing(b: Book, r: Request, c: Change, id: MemoryId)
    requires RowsOk(b) && Bound(b, r)
    ensures var out := SaveChange(b, r, c, id); out.Saved? ==> NoneReturns(b, out.book)
  {
    hide SaveChange, Contradicted, RowsOk;
    var out := SaveChange(b, r, c, id);
    if out.Saved? {
      SaveChangeFrame(b, r, c, id);
      assert ChangeProblem(b, r, c).Pass? by { SavedIsValid(b, r, c, id); }
      forall x | x in b.memories && !Held(b.memories[x].status) ensures !Held(out.book.memories[x].status) { OldStayHeld(b, r, c, x); }
    }
  }

  lemma SavedIsValid(b: Book, r: Request, c: Change, id: MemoryId)
    requires SaveChange(b, r, c, id).Saved?
    ensures ChangeProblem(b, r, c).Pass?
  {
  }

  lemma {:induction false} SaveRevivesNothing(b: Book, r: Request, notes: seq<Note>, changes: seq<Change>, ids: seq<MemoryId>)
    requires Ok(b) && Bound(b, r) && |ids| >= |notes| + |changes|
    ensures var out := Save(b, r, notes, changes, ids); out.Saved? ==> NoneReturns(b, out.book)
  {
    hide Ok, SaveNotes, SaveChanges;
    SaveNotesReviveNothing(b, r, notes, ids);
    SaveNotesKeepsOk(b, r, notes, ids);
    var first := SaveNotes(b, r, notes, ids);
    if first.Saved? { SaveChangesReviveNothing(first.book, r, changes, ids[|notes|..]); }
  }

  lemma {:induction false} SaveNotesReviveNothing(b: Book, r: Request, notes: seq<Note>, ids: seq<MemoryId>)
    requires |ids| >= |notes|
    ensures var out := SaveNotes(b, r, notes, ids); out.Saved? ==> NoneReturns(b, out.book) && out.invalidated == {}
  {
    hide SaveNote;
    if notes != [] {
      var k := |notes| - 1;
      SaveNotesReviveNothing(b, r, notes[..k], ids);
      var before := SaveNotes(b, r, notes[..k], ids);
      if before.Saved? { SaveNoteFrame(before.book, r, notes[k], ids[k]); }
    }
  }

  lemma {:induction false} SaveChangesReviveNothing(b: Book, r: Request, changes: seq<Change>, ids: seq<MemoryId>)
    requires Ok(b) && Bound(b, r) && |ids| >= |changes|
    ensures var out := SaveChanges(b, r, changes, ids); out.Saved? ==> NoneReturns(b, out.book)
  {
    hide RowsOk, ConflictComplete, SaveChange;
    if changes != [] {
      var k := |changes| - 1;
      SaveChangesReviveNothing(b, r, changes[..k], ids);
      SaveChangesKeepsOk(b, r, changes[..k], ids);
      var before := SaveChanges(b, r, changes[..k], ids);
      if before.Saved? { SaveChangeRevivesNothing(before.book, r, changes[k], ids[k]); }
    }
  }

  lemma NextRevivesNothing(b: Book, e: Event)
    requires Ok(b)
    ensures NoneReturns(b, Next(b, e))
  {
    hide Ok, Save, Affected;
    if e.Result? && Bound(b, e.request) && |e.ids| >= |e.notes| + |e.changes| { SaveRevivesNothing(b, e.request, e.notes, e.changes, e.ids); }
  }

  lemma {:induction false} StaysGone(b: Book, events: seq<Event>, id: MemoryId)
    requires Ok(b) && id in b.memories && !Current(b, id)
    ensures id in Run(b, events).memories && !Current(Run(b, events), id)
    decreases |events|
  {
    hide RowsOk, ConflictComplete, Next;
    HeldIsCurrent(b, id);
    if events != [] {
      NextKeepsOk(b, events[0]);
      NextRevivesNothing(b, events[0]);
      HeldIsCurrent(Next(b, events[0]), id);
      StaysGone(Next(b, events[0]), events[1..], id);
    }
  }

  /** A memory that stopped being current never becomes current again, whatever happens to the ledger and to the messages. */
  lemma {:induction false} NoResurrection(before: seq<Event>, after: seq<Event>, id: MemoryId)
    ensures var b, later := Run(Blank, before), Run(Blank, before + after);
      id in b.memories && !Current(b, id) ==> id in later.memories && !Current(later, id)
  {
    hide Ok, Run, Current;
    BlankIsOk();
    RunKeepsOk(Blank, before);
    RunContinues(Blank, before, after);
    if id in Run(Blank, before).memories && !Current(Run(Blank, before), id) { StaysGone(Run(Blank, before), after, id); }
  }
}
