/** The private-state table as an object: entries are edited one by one and rows rewritten under their version. */
module PrivateStates {
  import opened Wrappers
  import opened PrivateState
  import L = Ledger
  import LP = LedgerProofs

  lemma {:induction false} PutAt(entries: seq<Entry>, e: Entry, i: nat)
    requires i < |entries| && entries[i].id == e.id && forall k :: 0 <= k < i ==> entries[k].id != e.id
    ensures Put(entries, e) == entries[i := e]
  {
    if i > 0 {
      PutAt(entries[1..], e, i - 1);
      assert entries[i := e] == [entries[0]] + entries[1..][i - 1 := e];
    }
  }

  lemma {:induction false} PutNew(entries: seq<Entry>, e: Entry)
    requires forall k :: 0 <= k < |entries| ==> entries[k].id != e.id
    ensures Put(entries, e) == entries + [e]
  {
    if entries != [] {
      PutNew(entries[1..], e);
      assert entries + [e] == [entries[0]] + (entries[1..] + [e]);
    }
  }

  lemma {:induction false} RefusedPutsStayRefused(b: Book, sources: map<SourceId, Source>, r: Bound, entries: seq<Entry>, upsert: seq<Entry>, i: nat)
    requires i <= |upsert| && PutAll(b, sources, r, entries, upsert[..i]).Refused?
    ensures PutAll(b, sources, r, entries, upsert) == PutAll(b, sources, r, entries, upsert[..i])
    decreases |upsert|
  {
    if i < |upsert| {
      assert upsert[..|upsert| - 1][..i] == upsert[..i];
      RefusedPutsStayRefused(b, sources, r, entries, upsert[..|upsert| - 1], i);
    } else {
      assert upsert[..i] == upsert;
    }
  }

  lemma {:induction false} RefusedRemovalsStayRefused(entries: seq<Entry>, ids: seq<EntryId>, i: nat)
    requires i <= |ids| && RemoveAll(entries, ids[..i]).Refused?
    ensures RemoveAll(entries, ids) == RemoveAll(entries, ids[..i])
    decreases |ids|
  {
    if i < |ids| {
      assert ids[..|ids| - 1][..i] == ids[..i];
      RefusedRemovalsStayRefused(entries, ids[..|ids| - 1], i);
    } else {
      assert ids[..i] == ids;
    }
  }

  lemma {:induction false} KeptGrows(entries: seq<Entry>, loss: Loss, i: nat)
    requires i < |entries|
    ensures Kept(entries[..i + 1], loss) == Kept(entries[..i], loss) + (if Hit(entries[i], loss) then [] else [entries[i]])
  {
    if i == 0 {
      assert entries[..1] == [entries[0]] && entries[..0] == [];
    } else {
      KeptGrows(entries[1..], loss, i - 1);
      assert entries[..i + 1][1..] == entries[1..][..i] && entries[..i][1..] == entries[1..][..i - 1];
    }
  }

  lemma {:induction false} WithoutGrows(entries: seq<Entry>, id: EntryId, i: nat)
    requires i < |entries|
    ensures Without(entries[..i + 1], id) == Without(entries[..i], id) + (if entries[i].id == id then [] else [entries[i]])
  {
    if i == 0 {
      assert entries[..1] == [entries[0]] && entries[..0] == [];
    } else {
      WithoutGrows(entries[1..], id, i - 1);
      assert entries[..i + 1][1..] == entries[1..][..i] && entries[..i][1..] == entries[1..][..i - 1];
    }
  }

  class Table {
    var states: map<Owner, Private>

    constructor ()
      ensures states == map[]
    {
      states := map[];
    }

    method SetEntry(entries: seq<Entry>, e: Entry) returns (next: seq<Entry>)
      ensures next == Put(entries, e)
    {
      var i := 0;
      while i < |entries|
        invariant i <= |entries| && forall k :: 0 <= k < i ==> entries[k].id != e.id
      {
        if entries[i].id == e.id { PutAt(entries, e, i); return entries[i := e]; }
        i := i + 1;
      }
      PutNew(entries, e);
      next := entries + [e];
    }

    method DeleteEntry(entries: seq<Entry>, id: EntryId) returns (next: seq<Entry>)
      ensures next == Without(entries, id)
    {
      next := [];
      var i := 0;
      while i < |entries|
        invariant i <= |entries| && next == Without(entries[..i], id)
      {
        WithoutGrows(entries, id, i);
        if entries[i].id != id { next := next + [entries[i]]; }
        i := i + 1;
      }
      assert entries[..i] == entries;
    }

    method ApplyPatch(b: Book, sources: map<SourceId, Source>, r: Bound, current: Private, p: Patch) returns (entries: seq<Entry>, check: Check)
      ensures match Patched(b, sources, r, current, Some(p))
        case Applied(next) => check.Pass? && entries == next.entries
        case Refused(code) => check == Fail(code)
    {
      hide PutAll, RemoveAll, Ids;
      entries := current.entries;
      if p.owner != r.owner || p.session != r.session { return entries, Fail(STATE_OWNER_MISMATCH); }
      if p.expectedVersion != current.version { return entries, Fail(STALE_PRIVATE_STATE); }
      if r.context.None? || p.observation != r.context.value.observation { return entries, Fail(STATE_OBSERVATION_MISMATCH); }
      if !L.Distinct(Ids(p.upsert) + p.remove) { return entries, Fail(DUPLICATE_STATE_OPERATION); }
      entries, check := PutEntries(b, sources, r, entries, p.upsert);
      if check.Pass? { entries, check := RemoveEntries(entries, p.remove); }
    }

    method PutEntries(b: Book, sources: map<SourceId, Source>, r: Bound, start: seq<Entry>, upsert: seq<Entry>) returns (entries: seq<Entry>, check: Check)
      ensures match PutAll(b, sources, r, start, upsert)
        case Applied(next) => check.Pass? && entries == next.entries
        case Refused(code) => check == Fail(code)
    {
      hide EntryProblem;
      entries := start;
      var i := 0;
      assert upsert[..0] == [];
      while i < |upsert|
        invariant i <= |upsert| && PutAll(b, sources, r, start, upsert[..i]) == Applied(Private(0, entries))
      {
        assert upsert[..i + 1][..i] == upsert[..i];
        check := EntryProblem(b, sources, r, upsert[i]);
        if check.Fail? { RefusedPutsStayRefused(b, sources, r, start, upsert, i + 1); return; }
        entries := SetEntry(entries, upsert[i]);
        i := i + 1;
      }
      assert upsert[..i] == upsert;
      check := Pass;
    }

    method RemoveEntries(start: seq<Entry>, ids: seq<EntryId>) returns (entries: seq<Entry>, check: Check)
      ensures match RemoveAll(start, ids)
        case Applied(next) => check.Pass? && entries == next.entries
        case Refused(code) => check == Fail(code)
    {
      entries := start;
      var i := 0;
      assert ids[..0] == [];
      while i < |ids|
        invariant i <= |ids| && RemoveAll(start, ids[..i]) == Applied(Private(0, entries))
      {
        assert ids[..i + 1][..i] == ids[..i];
        if !Holds(entries, ids[i]) { RefusedRemovalsStayRefused(start, ids, i + 1); return entries, Fail(UNKNOWN_STATE_ENTRY); }
        entries := DeleteEntry(entries, ids[i]);
        i := i + 1;
      }
      assert ids[..i] == ids;
      check := Pass;
    }

    /** Compares the request's identity with the present rows. */
    method IsCurrent(who: People, owner: Owner, i: Identity) returns (same: bool)
      ensures same == IdentityCurrent(who, owner, i)
    {
      if owner !in who || i.profile.None? || i.profile.value != who[owner].profile || i.character != who[owner].character { return false; }
      var current: map<Owner, Member> := map[];
      var todo := who.Keys;
      while todo != {}
        invariant todo <= who.Keys
        invariant current == map o | o in who && o !in todo && who[o].session == who[owner].session && who[o].enabled :: who[o].member
        decreases todo
      {
        var o :| o in todo;
        todo := todo - {o};
        if who[o].session == who[owner].session && who[o].enabled { current := current[o := who[o].member]; }
      }
      assert current == Participants(who, who[owner].session);
      same := i.participants == current;
    }

    /** The result of an authorized run; `fits` is the verdict on the size of the stored form. */
    method Finish(b: Book, sources: map<SourceId, Source>, r: Bound, who: People, patch: Option<Patch>, fits: bool) returns (check: Check)
      modifies this
      ensures match Complete(b, sources, StateOf(old(states), r.owner), r, who, patch, fits)
        case Applied(next) => check.Pass? && states == old(states)[r.owner := next]
        case Refused(code) => check == Fail(code) && states == old(states)
    {
      hide Patched, OneAssessment, OneAnswerPerQuestion, IdentityCurrent;
      if r.context.None? || r.context.value.self != r.owner { return Fail(STATE_CONTEXT_REQUIRED); }
      var x := r.context.value;
      if x.stateOwner != r.owner || x.stateSession != r.session { return Fail(STATE_OWNER_MISMATCH); }
      if x.observation != x.digest { return Fail(STATE_OBSERVATION_MISMATCH); }
      var same := IsCurrent(who, r.owner, x.identity);
      if !same { return Fail(STALE_AGENT_IDENTITY); }
      if r.owner !in b.owners || b.owners[r.owner] != r.session { return Fail(STATE_OWNER_MISMATCH); }
      var current := StateOf(states, r.owner);
      if x.version != current.version { return Fail(STALE_PRIVATE_STATE); }
      if !(forall m :: m in r.memories ==> L.Current(b, m) && b.memories[m].owner == r.owner) { return Fail(STALE_MEMORY_EVIDENCE); }
      var entries := current.entries;
      PatchedNothing(b, sources, r, current);
      if patch.Some? {
        entries, check := ApplyPatch(b, sources, r, current, patch.value);
        if check.Fail? { return; }
      }
      if !OneAssessment(entries) { return Fail(DUPLICATE_PARTICIPATION_ASSESSMENT); }
      if !OneAnswerPerQuestion(entries) { return Fail(DUPLICATE_QUESTION_ASSESSMENT); }
      if !fits { return Fail(PRIVATE_STATE_CAPACITY); }
      states := states[r.owner := Private(if entries != current.entries then current.version + 1 else current.version, entries)];
      check := Pass;
    }

    method Filter(p: Private, loss: Loss) returns (next: Private)
      ensures next == Stripped(p, loss)
    {
      hide Hit;
      var entries := [];
      var i := 0;
      while i < |p.entries|
        invariant i <= |p.entries| && entries == Kept(p.entries[..i], loss)
      {
        KeptGrows(p.entries, loss, i);
        if !Hit(p.entries[i], loss) { entries := entries + [p.entries[i]]; }
        i := i + 1;
      }
      assert p.entries[..i] == p.entries;
      next := if |entries| == |p.entries| then p else Private(p.version + 1, entries);
    }

    /** Removes dependent entries from the states of the session, one owner after another. */
    method RemoveDependents(owners: map<Owner, SessionId>, session: SessionId, loss: Loss)
      modifies this
      ensures states == Invalidate(old(states), owners, session, loss)
    {
      hide Stripped;
      var todo := set o | o in states && o in owners && owners[o] == session;
      ghost var was, all := states, todo;
      while todo != {}
        invariant todo <= all && states.Keys == was.Keys
        invariant forall o :: o in was ==> states[o] == if o in all - todo then Stripped(was[o], loss) else was[o]
        decreases todo
      {
        var o :| o in todo;
        todo := todo - {o};
        var next := Filter(states[o], loss);
        states := states[o := next];
      }
    }
  }

  lemma PatchedNothing(b: Book, sources: map<SourceId, Source>, r: Bound, current: Private)
    ensures Patched(b, sources, r, current, None) == Applied(current)
  {
  }
}
