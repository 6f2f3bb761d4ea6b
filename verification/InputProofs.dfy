/** A window that is produced is accepted, accepted windows deliver every message notice once and in order, and draining ends. */
module InputProofs {
  import opened Wrappers
  import opened InputWindows

  // ---------------------------------------------------------------- the producer meets the checker

  /** The draft holds the first n rows and all evidence they stand for. */
  ghost predicate Tracks(s: Store, rows: seq<Notice>, from: nat, target: nat, d: Draft, n: nat) {
    && n <= |rows| && |d.entries| == n
    && (forall j :: 0 <= j < n ==> EntryOf(s, rows[j]) == Ok(d.entries[j]))
    && d.through == (if n == 0 then from else rows[n - 1].id) && d.complete == (d.through >= target)
    && (forall j :: 0 <= j < n ==> Evidenced(d, d.entries[j]))
    && (forall x :: x in d.sources ==> exists j :: 0 <= j < n && rows[j].kind == OfSource && rows[j].entity == x)
  }

  /** The request shows the message or source that the entry announces. */
  predicate Evidenced(d: Draft, e: Entry) { if e.kind == OfMessage then e.entity in d.messages else e.entity in d.sources }

  lemma {:induction false} FillTracks(s: Store, fits: (Draft, bool) -> bool, lean: bool, rows: seq<Notice>, from: nat, target: nat, d: Draft, i: nat)
    requires i <= |rows| && Tracks(s, rows, from, target, d, i)
    ensures var out := Fill(s, fits, lean, rows, target, d, i);
      out.Ok? ==> Tracks(s, rows, from, target, out.value, |out.value.entries|) && |out.value.entries| >= i && (rows != [] ==> out.value.entries != [])
    decreases |rows| - i
  {
    hide Tracks, Extended;
    if i < |rows| && EntryOf(s, rows[i]).Ok? {
      ExtendedTracks(s, rows, from, target, d, i);
      var next := Extended(d, rows[i], EntryOf(s, rows[i]).value, target);
      FillTracks(s, fits, lean, rows, from, target, next, i + 1);
    }
    TracksLength(s, rows, from, target, d, i);
  }

  lemma TracksLength(s: Store, rows: seq<Notice>, from: nat, target: nat, d: Draft, n: nat)
    requires Tracks(s, rows, from, target, d, n)
    ensures |d.entries| == n && n <= |rows|
  {
  }

  lemma ExtendedTracks(s: Store, rows: seq<Notice>, from: nat, target: nat, d: Draft, i: nat)
    requires i < |rows| && Tracks(s, rows, from, target, d, i) && EntryOf(s, rows[i]).Ok?
    ensures var next := Extended(d, rows[i], EntryOf(s, rows[i]).value, target);
      Tracks(s, rows, from, target, next, i + 1) && |next.entries| == i + 1
  {
    var next := Extended(d, rows[i], EntryOf(s, rows[i]).value, target);
    forall j | 0 <= j < i + 1 ensures Evidenced(next, next.entries[j]) { if j < i { assert Evidenced(d, d.entries[j]); } }
    forall x | x in next.sources ensures exists j :: 0 <= j < i + 1 && rows[j].kind == OfSource && rows[j].entity == x {
      if x !in d.sources { assert rows[i].kind == OfSource && rows[i].entity == x; }
    }
  }

  /** Optional evidence is only ever added: entries, position and mandatory evidence stay. */
  predicate Extends(d: Draft, d': Draft) {
    && d'.entries == d.entries && d'.through == d.through && d'.complete == d.complete
    && d.messages <= d'.messages && d.sources <= d'.sources
  }

  lemma {:induction false} RecallExtends(fits: (Draft, bool) -> bool, lean: bool, d: Draft, notes: seq<NoteId>)
    ensures Extends(d, Recall(fits, lean, d, notes)) && Recall(fits, lean, d, notes).sources == d.sources
  {
    if notes != [] { RecallExtends(fits, lean, d, notes[..|notes| - 1]); }
  }

  lemma {:induction false} AddMessagesExtends(fits: (Draft, bool) -> bool, lean: bool, d: Draft, recent: seq<MessageId>)
    ensures Extends(d, AddMessages(fits, lean, d, recent)) && AddMessages(fits, lean, d, recent).sources == d.sources
  {
    if recent != [] { AddMessagesExtends(fits, lean, d, recent[..|recent| - 1]); }
  }

  lemma {:induction false} AddSourcesExtends(fits: (Draft, bool) -> bool, lean: bool, d: Draft, recent: seq<SourceId>)
    ensures Extends(d, AddSources(fits, lean, d, recent))
    ensures forall x :: x in AddSources(fits, lean, d, recent).sources ==> x in d.sources || x in recent
  {
    if recent != [] {
      AddSourcesExtends(fits, lean, d, recent[..|recent| - 1]);
      assert recent == recent[..|recent| - 1] + [recent[|recent| - 1]];
    }
  }

  lemma OptionalExtends(fits: (Draft, bool) -> bool, lean: bool, kind: RunKind, d: Draft, offer: Offer)
    ensures Extends(d, Optional(fits, lean, kind, d, offer))
    ensures forall x :: x in Optional(fits, lean, kind, d, offer).sources ==> x in d.sources || x in offer.sources
  {
    RecallExtends(fits, lean, d, offer.notes);
    var recalled := if kind == Observe then d else Recall(fits, lean, d, offer.notes);
    AddMessagesExtends(fits, lean, recalled, offer.messages);
    AddSourcesExtends(fits, lean, AddMessages(fits, lean, recalled, offer.messages), offer.sources);
  }

  /** The mandatory part of a request before optional evidence is added. */
  ghost predicate Mandatory(s: Store, o: Owner, from: nat, target: nat, d: Draft) {
    && from <= d.through <= target && d.complete == (d.through >= target)
    && Covers(Between(s, o, s.log, from, d.through), d.entries)
    && (forall j :: 0 <= j < |d.entries| ==> Evidenced(d, d.entries[j]))
    && StaleEntry(s, o, d.entries).Pass?
    && (forall x :: x in d.sources ==> Readable(s, o, x))
    && (Between(s, o, s.log, from, target) != [] ==> d.through > from && d.entries != [])
    && (Between(s, o, s.log, d.through, target) == [] ==> d.through == target)
  }

  lemma {:induction false} FreshEntries(s: Store, o: Owner, rows: seq<Notice>, entries: seq<Entry>)
    requires |rows| == |entries| && forall j :: 0 <= j < |rows| ==> EntryOf(s, rows[j]) == Ok(entries[j])
    requires forall j :: 0 <= j < |rows| && rows[j].kind == OfSource ==> Readable(s, o, rows[j].entity)
    ensures StaleEntry(s, o, entries).Pass?
  {
    if rows != [] {
      assert EntryOf(s, rows[0]) == Ok(entries[0]);
      forall j | 0 <= j < |rows[1..]| ensures EntryOf(s, rows[1..][j]) == Ok(entries[1..][j]) { assert EntryOf(s, rows[j + 1]) == Ok(entries[j + 1]); }
      FreshEntries(s, o, rows[1..], entries[1..]);
    }
  }

  lemma FilledIsMandatory(s: Store, o: Owner, fits: (Draft, bool) -> bool, lean: bool, from: nat, target: nat, limit: nat)
    requires StoreOk(s) && from <= target && limit > 0
    ensures var out := Fill(s, fits, lean, First(Between(s, o, s.log, from, target), limit), target, Blank(from, target), 0);
      out.Ok? ==> Mandatory(s, o, from, target, Closed(s, o, target, out.value))
  {
    var rows := First(Between(s, o, s.log, from, target), limit);
    hide Fill, Tracks, Mandatory, StoreOk, Between;
    BlankTracks(s, rows, from, target);
    FillTracks(s, fits, lean, rows, from, target, Blank(from, target), 0);
    var out := Fill(s, fits, lean, rows, target, Blank(from, target), 0);
    if out.Ok? { TrackedIsMandatory(s, o, from, target, limit, out.value); }
  }

  lemma BlankTracks(s: Store, rows: seq<Notice>, from: nat, target: nat)
    ensures Tracks(s, rows, from, target, Blank(from, target), 0)
  {
  }

  lemma TrackedIsMandatory(s: Store, o: Owner, from: nat, target: nat, limit: nat, d: Draft)
    requires StoreOk(s) && from <= target && limit > 0
    requires var rows := First(Between(s, o, s.log, from, target), limit); Tracks(s, rows, from, target, d, |d.entries|) && (rows != [] ==> d.entries != [])
    ensures Mandatory(s, o, from, target, Closed(s, o, target, d))
  {
    hide Between, Readable, CurrentVersion, StaleEntry;
    var all := Between(s, o, s.log, from, target);
    var rows, n := First(all, limit), |d.entries|;
    PrefixIsWindow(s, o, from, target, n);
    BetweenRows(s, o, s.log, from, target);
    forall j | 0 <= j < n ensures InWindow(s, o, from, target, rows[j]) && rows[j] == all[j] { assert all[j] in all; }
    assert rows[..n] == all[..n];
    FreshEntries(s, o, rows[..n], d.entries);
    forall j | 0 <= j < n ensures Matches(all[..n][j], d.entries[j]) { assert EntryOf(s, rows[j]) == Ok(d.entries[j]); }
    forall x | x in d.sources ensures Readable(s, o, x) {
      var j :| 0 <= j < n && rows[j].kind == OfSource && rows[j].entity == x;
      assert InWindow(s, o, from, target, rows[j]);
    }
    BetweenSplits(s, o, s.log, from, d.through, target);
    ClosedStaysMandatory(s, o, from, target, d);
    forall j | 0 <= j < n ensures Evidenced(Closed(s, o, target, d), d.entries[j]) { assert Evidenced(d, d.entries[j]); }
  }

  /** Moving the end over excluded notices adds no entry. */
  lemma ClosedStaysMandatory(s: Store, o: Owner, from: nat, target: nat, d: Draft)
    requires LogOk(s.log) && from <= d.through <= target && d.complete == (d.through >= target)
    requires Covers(Between(s, o, s.log, from, d.through), d.entries)
    requires Between(s, o, s.log, from, target) == Between(s, o, s.log, from, d.through) + Between(s, o, s.log, d.through, target)
    ensures var d' := Closed(s, o, target, d);
      && d' == d.(through := d'.through, complete := d'.complete) && d.through <= d'.through <= target && d'.complete == (d'.through >= target)
      && Covers(Between(s, o, s.log, from, d'.through), d'.entries) && (Between(s, o, s.log, d'.through, target) == [] ==> d'.through == target)
  {
    if Between(s, o, s.log, d.through, target) == [] {
      Empty(s, o, s.log, target);
    }
  }

  lemma {:induction false} FreshSources(s: Store, o: Owner, sources: seq<SourceId>)
    requires forall x :: x in sources ==> Readable(s, o, x)
    ensures StaleSource(s, o, Versions(s, sources)).Pass?
  {
    if sources != [] {
      FreshSources(s, o, sources[1..]);
      assert Versions(s, sources)[1..] == Versions(s, sources[1..]);
    }
  }

  /** Whatever the size limits do, a request that is built is accepted while nothing changes. It shows the evidence of every entry,
      and it moves the cursor whenever something visible is pending. */
  lemma ProducerMeetsChecker(s: Store, o: Owner, c: Cursor, kind: RunKind, limit: nat, fits: (Draft, bool) -> bool, offer: Offer)
    requires StoreOk(s) && limit > 0 && forall x :: x in offer.sources ==> Readable(s, o, x)
    ensures var out := Produce(s, o, c, kind, limit, fits, offer);
      out.Ok? ==>
        && Validate(s, o, Frozen(s, o, c, kind), kind, out.value).Pass?
        && (forall e :: e in out.value.window.entries && e.kind == OfMessage ==> e.entity in out.value.messages)
        && (forall e :: e in out.value.window.entries && e.kind == OfSource ==> exists v :: (e.entity, v) in out.value.sources)
        && (Between(s, o, s.log, From(c, kind), High(s, o, c)) != [] ==> out.value.window.through > From(c, kind))
  {
    hide StoreOk, Fill, Closed, Optional, Mandatory, Readable, Between, Target, High, StaleEntry, StaleSource, Covers;
    var out := Produce(s, o, c, kind, limit, fits, offer);
    if out.Ok? {
      var from, target := From(c, kind), Target(s, o, c, kind);
      StoreHasLog(s);
      TargetInReach(s, o, c, kind);
      var lean := kind != Memory && fits(Blank(from, target), true);
      FilledIsMandatory(s, o, fits, lean, from, target, limit);
      var filled := Fill(s, fits, lean, First(Between(s, o, s.log, from, target), limit), target, Blank(from, target), 0).value;
      var mandatory := Closed(s, o, target, filled);
      OptionalExtends(fits, lean, kind, mandatory, offer);
      var d := Optional(fits, lean, kind, mandatory, offer);
      MandatoryFacts(s, o, from, target, mandatory);
      FreshSources(s, o, d.sources);
      forall e | e in out.value.window.entries
        ensures e.kind == OfMessage ==> e.entity in out.value.messages
        ensures e.kind == OfSource ==> exists v :: (e.entity, v) in out.value.sources
      {
        var j :| 0 <= j < |mandatory.entries| && mandatory.entries[j] == e;
        assert Evidenced(mandatory, mandatory.entries[j]);
        if e.kind == OfSource { SourceHasVersion(s, d.sources, e.entity); }
      }
      PendingMovesTarget(s, o, c, kind);
    }
  }

  lemma StoreHasLog(s: Store)
    requires StoreOk(s)
    ensures LogOk(s.log)
  {
  }

  lemma SourceHasVersion(s: Store, sources: seq<SourceId>, x: SourceId)
    requires x in sources
    ensures exists v :: (x, v) in Versions(s, sources)
  {
    var k :| 0 <= k < |sources| && sources[k] == x;
    assert Versions(s, sources)[k] == (x, CurrentVersion(s, OfSource, x).GetOr(0));
  }

  lemma MandatoryFacts(s: Store, o: Owner, from: nat, target: nat, d: Draft)
    requires Mandatory(s, o, from, target, d)
    ensures from <= d.through <= target && d.complete == (d.through >= target) && Covers(Between(s, o, s.log, from, d.through), d.entries)
    ensures StaleEntry(s, o, d.entries).Pass? && (forall x :: x in d.sources ==> Readable(s, o, x))
    ensures forall j :: 0 <= j < |d.entries| ==> Evidenced(d, d.entries[j])
    ensures Between(s, o, s.log, from, target) != [] ==> d.through > from
    ensures LogOk(s.log) && Between(s, o, s.log, from, target) == [] ==> d.through == target
  {
    if LogOk(s.log) { BetweenSplits(s, o, s.log, from, d.through, target); }
  }

  /** If anything visible is pending, the target lies ahead of the cursor. */
  lemma PendingMovesTarget(s: Store, o: Owner, c: Cursor, kind: RunKind)
    requires StoreOk(s)
    ensures Between(s, o, s.log, From(c, kind), High(s, o, c)) != [] ==> Target(s, o, c, kind) > From(c, kind)
  {
    hide Between, Highest;
    var rows := Between(s, o, s.log, From(c, kind), High(s, o, c));
    BetweenRows(s, o, s.log, From(c, kind), High(s, o, c));
    if rows != [] { assert rows[0] in rows; }
  }

  lemma TargetInReach(s: Store, o: Owner, c: Cursor, kind: RunKind)
    ensures From(c, kind) <= Target(s, o, c, kind) <= Max(From(c, kind), High(s, o, Frozen(s, o, c, kind)))
    ensures From(Frozen(s, o, c, kind), kind) == From(c, kind)
  {
    hide Highest;
  }
}
