/** What happens to interpretations that were derived from others: they fall with them. */
module Derivation {
  import opened Wrappers
  import opened Ledger
  import opened LedgerProofs

  /** Between two books rows keep their parents, nothing returns, and whatever was derived, over any number of steps, from a
      memory whose status changed is no longer held. */
  ghost predicate Spreads(b: Book, b': Book) {
    && NoneReturns(b, b')
    && (forall x :: x in b.memories ==> b'.memories[x].parents == b.memories[x].parents)
    && forall p, x :: p in b.memories && Descends(b, {p}, None, x) && b'.memories[p].status != b.memories[p].status ==> Fallen(b', x)
  }

  ghost predicate Fallen(b: Book, x: MemoryId) { x in b.memories && !Held(b.memories[x].status) }

  lemma PathStays(b: Book, b': Book, p: MemoryId, x: MemoryId)
    requires b.memories.Keys <= b'.memories.Keys && forall y :: y in b.memories ==> b'.memories[y].parents == b.memories[y].parents
    requires Descends(b, {p}, None, x)
    ensures x in b.memories && Descends(b', {p}, None, x)
  {
    var path :| IsPath(b, {p}, None, path) && path[|path| - 1] == x;
    assert IsPath(b', {p}, None, path);
  }

  lemma SpreadsTransitive(b: Book, mid: Book, b': Book)
    requires Spreads(b, mid) && Spreads(mid, b')
    ensures Spreads(b, b')
  {
    hide Descends, Held;
    forall p, x | p in b.memories && Descends(b, {p}, None, x) && b'.memories[p].status != b.memories[p].status ensures Fallen(b', x) {
      PathStays(b, mid, p, x);
      if mid.memories[p].status != b.memories[p].status { assert Fallen(mid, x); }
    }
  }

  lemma SameStatusesSpread(b: Book, b': Book)
    requires b.memories.Keys <= b'.memories.Keys && forall x :: x in b.memories ==> b'.memories[x] == b.memories[x]
    ensures Spreads(b, b')
  {
    hide Descends;
  }

  /** A path that continues behind another one. */
  lemma PathsJoin(b: Book, roots: set<MemoryId>, spared: Option<MemoryId>, p: MemoryId, left: seq<MemoryId>, right: seq<MemoryId>)
    requires IsPath(b, roots, spared, left) && left[|left| - 1] == p && IsPath(b, {p}, spared, right)
    ensures IsPath(b, roots, spared, left + right[1..]) && (left + right[1..])[|left| + |right| - 2] == right[|right| - 1]
  {
    var path := left + right[1..];
    forall i | 0 < i < |path| ensures path[i] in b.memories && path[i - 1] in b.memories[path[i]].parents && spared != Some(path[i]) {
      if i >= |left| { assert path[i] == right[i - |left| + 1] && path[i - 1] == right[i - |left|]; }
    }
  }

  /** Inside one reconciliation: what descends from a row that it touches is lost. */
  lemma LostWithParent(b: Book, roots: set<MemoryId>, id: MemoryId, p: MemoryId, x: MemoryId)
    requires (p in roots || p in Descendants(b, roots, Some(id))) && Descends(b, {p}, Some(id), x)
    ensures x in Descendants(b, roots, Some(id))
  {
    var right :| IsPath(b, {p}, Some(id), right) && right[|right| - 1] == x;
    if p in roots {
      assert IsPath(b, roots, Some(id), right);
    } else {
      var left :| IsPath(b, roots, Some(id), left) && left[|left| - 1] == p;
      PathsJoin(b, roots, Some(id), p, left, right);
    }
  }

  /** Paths between older rows avoid the new one. */
  lemma AvoidsNewcomer(b: Book, inserted: Book, id: MemoryId, p: MemoryId, x: MemoryId)
    requires id !in b.memories && b.memories.Keys <= inserted.memories.Keys && forall y :: y in b.memories ==> inserted.memories[y] == b.memories[y]
    requires Descends(b, {p}, None, x)
    ensures Descends(inserted, {p}, Some(id), x)
  {
    var path :| IsPath(b, {p}, None, path) && path[|path| - 1] == x;
    assert IsPath(inserted, {p}, Some(id), path);
  }

  lemma ChangeSpreads(b: Book, r: Request, c: Change, id: MemoryId)
    requires RowsOk(b) && Bound(b, r) && SaveChange(b, r, c, id).Saved?
    ensures Spreads(b, SaveChange(b, r, c, id).book)
  {
    hide RowsOk, Reconciled, Descendants, Descends, ChangeProblem, NewStatus, Superseded, Contradicted, Lineage, Inherited, RefsOf;
    SaveChangeRevivesNothing(b, r, c, id);
    SaveChangeFrame(b, r, c, id);
    ChangeFacts(b, r, c);
    EvidenceIsStored(b, r, c.sources);
    var roots := Superseded(b, r, c) + Contradicted(b, r, c);
    var inserted := Insert(b, r.owner, id, c.text, RefsOf(b, c.sources) + Inherited(b, Lineage(b, r, c)), Some(c.meaning), Lineage(b, r, c), NewStatus(b, r, c)).book;
    var after := SaveChange(b, r, c, id).book;
    forall p, x | p in b.memories && Descends(b, {p}, None, x) && after.memories[p].status != b.memories[p].status ensures Fallen(after, x) {
      PathStays(b, b, p, x);
      AvoidsNewcomer(b, inserted, id, p, x);
      ReconciledRow(inserted, Superseded(b, r, c), Contradicted(b, r, c), id, p);
      LostWithParent(inserted, roots, id, p, x);
      ReconciledRow(inserted, Superseded(b, r, c), Contradicted(b, r, c), id, x);
    }
  }

  lemma {:induction false} NotesSpread(b: Book, r: Request, notes: seq<Note>, ids: seq<MemoryId>)
    requires |ids| >= |notes| && SaveNotes(b, r, notes, ids).Saved?
    ensures Spreads(b, SaveNotes(b, r, notes, ids).book)
  {
    hide SaveNote, Spreads;
    if notes == [] {
      SameStatusesSpread(b, b);
    } else {
      var k := |notes| - 1;
      var before := SaveNotes(b, r, notes[..k], ids).book;
      NotesSpread(b, r, notes[..k], ids);
      SaveNoteFrame(before, r, notes[k], ids[k]);
      SameStatusesSpread(before, SaveNote(before, r, notes[k], ids[k]).book);
      SpreadsTransitive(b, before, SaveNote(before, r, notes[k], ids[k]).book);
    }
  }

  lemma {:induction false} ChangesSpread(b: Book, r: Request, changes: seq<Change>, ids: seq<MemoryId>)
    requires Ok(b) && Bound(b, r) && |ids| >= |changes| && SaveChanges(b, r, changes, ids).Saved?
    ensures Spreads(b, SaveChanges(b, r, changes, ids).book)
  {
    hide RowsOk, ConflictComplete, SaveChange, Spreads;
    if changes == [] {
      SameStatusesSpread(b, b);
    } else {
      var k := |changes| - 1;
      var before := SaveChanges(b, r, changes[..k], ids).book;
      ChangesSpread(b, r, changes[..k], ids);
      SaveChangesKeepsOk(b, r, changes[..k], ids);
      ChangeSpreads(before, r, changes[k], ids[k]);
      SpreadsTransitive(b, before, SaveChange(before, r, changes[k], ids[k]).book);
    }
  }

  lemma EditSpreads(b: Book, m: MessageId, revision: nat, deleted: bool)
    requires Ok(b) && m in b.messages && revision > b.messages[m].revision
    ensures Spreads(b, ChangeMessage(b, m, revision, deleted).book)
  {
    hide RowOk, ConflictComplete, Descendants;
    EditedClosure(b, m, revision, deleted);
    var b' := ChangeMessage(b, m, revision, deleted).book;
    forall p, x | p in b.memories && Descends(b, {p}, None, x) && b'.memories[p].status != b.memories[p].status ensures Fallen(b', x) {
      var path :| IsPath(b, {p}, None, path) && path[|path| - 1] == x;
      PathCarriesEvidence(b, {p}, None, path);
      CitesAlso(b, p, x, m);
    }
  }

  lemma CitesAlso(b: Book, p: MemoryId, x: MemoryId, m: MessageId)
    requires RowsOk(b) && p in b.memories && x in b.memories && b.memories[p].evidence <= b.memories[x].evidence && m in b.memories[p].sources
    ensures m in b.memories[x].sources
  {
    assert RowOk(b, b.memories[p]) && RowOk(b, b.memories[x]);
    var e :| e in b.memories[p].evidence && e.message == m;
    assert e in b.memories[x].evidence;
  }

  lemma NextSpreads(b: Book, e: Event)
    requires Ok(b)
    ensures Spreads(b, Next(b, e))
  {
    hide Ok, Spreads, ChangeMessage, SaveNotes, SaveChanges;
    SameStatusesSpread(b, b);
    match e
    case Result(r, notes, changes, ids) =>
      if Bound(b, r) && |ids| >= |notes| + |changes| && Save(b, r, notes, changes, ids).Saved? {
        var first := SaveNotes(b, r, notes, ids).book;
        NotesSpread(b, r, notes, ids);
        SaveNotesKeepsOk(b, r, notes, ids);
        ChangesSpread(first, r, changes, ids[|notes|..]);
        SpreadsTransitive(b, first, SaveChanges(first, r, changes, ids[|notes|..]).book);
      }
    case Posted(_, _) => SameStatusesSpread(b, Next(b, e));
    case Changed(m, revision, deleted) => if m in b.messages && revision > b.messages[m].revision { EditSpreads(b, m, revision, deleted); }
    case Joined(_, _) => SameStatusesSpread(b, Next(b, e));
  }

  lemma {:induction false} RunSpreads(b: Book, events: seq<Event>)
    requires Ok(b)
    ensures Spreads(b, Run(b, events))
    decreases |events|
  {
    hide Ok, Spreads, Next;
    if events == [] {
      SameStatusesSpread(b, b);
    } else {
      NextKeepsOk(b, events[0]);
      NextSpreads(b, events[0]);
      RunSpreads(Next(b, events[0]), events[1..]);
      SpreadsTransitive(b, Next(b, events[0]), Run(Next(b, events[0]), events[1..]));
    }
  }

  /** Derived knowledge falls with what it was derived from: once the status of a memory has changed, by a merge, a correction, a
      contradiction or a change of its evidence, nothing that had been derived from it by then is ever current again. */
  lemma {:induction false} DerivedFallsWithItsSource(before: seq<Event>, after: seq<Event>, p: MemoryId, x: MemoryId)
    ensures var b, later := Run(Blank, before), Run(Blank, before + after);
      p in b.memories && Descends(b, {p}, None, x) ==>
        p in later.memories && x in later.memories && (later.memories[p].status != b.memories[p].status ==> !Current(later, x))
  {
    hide RowsOk, ConflictComplete, Run, Current, Descends;
    BlankIsOk();
    RunKeepsOk(Blank, before);
    RunContinues(Blank, before, after);
    var b, later := Run(Blank, before), Run(Blank, before + after);
    RunKeepsOk(b, after);
    RunSpreads(b, after);
    if p in b.memories && Descends(b, {p}, None, x) {
      PathStays(b, later, p, x);
      if later.memories[p].status != b.memories[p].status {
        assert Fallen(later, x);
        HeldIsCurrent(later, x);
      }
    }
  }
}
