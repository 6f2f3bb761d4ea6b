/** The owner's cursors as an object: requests are filled by growing and popping arrays, results move a cursor. */
module AgentInputs {
  import opened Wrappers
  import opened InputWindows
  import opened InputProofs

  class Inputs {
    var cursors: map<Owner, Cursor>

    constructor ()
      ensures cursors == map[]
    {
      cursors := map[];
    }

    function CursorOf(o: Owner): Cursor
      reads this
    {
      if o in cursors then cursors[o] else Cursor(0, 0, 0, 0)
    }

    /** Takes rows into the draft until the next one does not fit. */
    method FillPrefix(s: Store, fits: (Draft, bool) -> bool, lean: bool, rows: seq<Notice>, target: nat, blank: Draft) returns (out: Selected<Draft>)
      ensures out == Fill(s, fits, lean, rows, target, blank, 0)
    {
      var d := blank;
      var i := 0;
      while i < |rows|
        invariant i <= |rows|
        invariant Fill(s, fits, lean, rows, target, d, i) == Fill(s, fits, lean, rows, target, blank, 0)
      {
        var e := EntryOf(s, rows[i]);
        if e.Err? { return Err(e.code); }
        var previous := d;
        d := Extended(d, rows[i], e.value, target);
        if !fits(d, lean) {
          if i == 0 && fits(d, false) { return Ok(d); }
          d := previous;
          if i == 0 { return Err(CONTEXT_LIMIT); }
          return Ok(d);
        }
        i := i + 1;
      }
      out := Ok(d);
    }

    method RecallNotes(fits: (Draft, bool) -> bool, lean: bool, start: Draft, notes: seq<NoteId>) returns (d: Draft)
      ensures d == Recall(fits, lean, start, notes)
    {
      d := start;
      var i := 0;
      assert notes[..0] == [];
      while i < |notes|
        invariant i <= |notes| && d == Recall(fits, lean, start, notes[..i])
      {
        assert notes[..i + 1][..i] == notes[..i];
        var recalled := d.recalled;
        d := d.(recalled := recalled + [notes[i]]);
        if !fits(d, lean) { d := d.(recalled := recalled); }
        i := i + 1;
      }
      assert notes[..i] == notes;
    }

    method RecentMessages(fits: (Draft, bool) -> bool, lean: bool, start: Draft, recent: seq<MessageId>) returns (d: Draft)
      ensures d == AddMessages(fits, lean, start, recent)
    {
      d := start;
      var i := 0;
      assert recent[..0] == [];
      while i < |recent|
        invariant i <= |recent| && d == AddMessages(fits, lean, start, recent[..i])
      {
        assert recent[..i + 1][..i] == recent[..i];
        if recent[i] !in d.messages {
          var messages := d.messages;
          d := d.(messages := messages + [recent[i]]);
          if !fits(d, lean) { d := d.(messages := messages); }
        }
        i := i + 1;
      }
      assert recent[..i] == recent;
    }

    method RecentSources(fits: (Draft, bool) -> bool, lean: bool, start: Draft, recent: seq<SourceId>) returns (d: Draft)
      ensures d == AddSources(fits, lean, start, recent)
    {
      d := start;
      var i := 0;
      assert recent[..0] == [];
      while i < |recent|
        invariant i <= |recent| && d == AddSources(fits, lean, start, recent[..i])
      {
        assert recent[..i + 1][..i] == recent[..i];
        if recent[i] !in d.sources {
          var sources := d.sources;
          d := d.(sources := sources + [recent[i]]);
          if !fits(d, lean) { d := d.(sources := sources); }
        }
        i := i + 1;
      }
      assert recent[..i] == recent;
    }

    /** Cuts the request of one run. A memory job that begins freezes its target. */
    method Context(s: Store, o: Owner, kind: RunKind, limit: nat, fits: (Draft, bool) -> bool, offer: Offer) returns (out: Selected<Request>)
      modifies this
      ensures out == Produce(s, o, old(CursorOf(o)), kind, limit, fits, offer)
      ensures cursors == old(cursors)[o := Frozen(s, o, old(CursorOf(o)), kind)]
    {
      hide Fill, Recall, AddMessages, AddSources, Between;
      var c := CursorOf(o);
      var memory := kind == Memory;
      var from := if memory then c.memory else c.observed;
      var target := Max(from, High(s, o, c));
      cursors := cursors[o := c];
      if memory {
        if c.target <= c.memory { cursors := cursors[o := c.(target := target)]; } else { target := Max(from, Min(target, c.target)); }
      }
      var d := Blank(from, target);
      var lean := !memory;
      if !fits(d, lean) { lean := false; }
      if !fits(d, lean) { return Err(CONTEXT_LIMIT); }
      var filled := FillPrefix(s, fits, lean, First(Between(s, o, s.log, from, target), limit), target, d);
      if filled.Err? { return Err(filled.code); }
      d := filled.value;
      if Between(s, o, s.log, d.through, target) == [] { d := d.(through := target, complete := true); }
      if kind != Observe { d := RecallNotes(fits, lean, d, offer.notes); }
      if kind == Foreground {
        d := RecentMessages(fits, lean, d, offer.messages);
        d := RecentSources(fits, lean, d, offer.sources);
      }
      if !fits(d, false) { return Err(CONTEXT_LIMIT); }
      out := Ok(Request(Window(memory, from, d.through, target, d.complete, d.entries), d.messages, Versions(s, d.sources), d.recalled));
    }

    method CheckEntries(s: Store, o: Owner, entries: seq<Entry>) returns (r: Check)
      ensures r == StaleEntry(s, o, entries)
    {
      var i := 0;
      while i < |entries|
        invariant i <= |entries| && StaleEntry(s, o, entries[i..]) == StaleEntry(s, o, entries)
      {
        var e := entries[i];
        if e.kind == OfSource && !Readable(s, o, e.entity) { return Fail(SOURCE_NOT_FOUND); }
        if CurrentVersion(s, e.kind, e.entity) != Some(e.version) { return Fail(STALE_INPUT_EVIDENCE); }
        i := i + 1;
      }
      r := Pass;
    }

    method CheckSources(s: Store, o: Owner, sources: seq<(SourceId, nat)>) returns (r: Check)
      ensures r == StaleSource(s, o, sources)
    {
      var i := 0;
      while i < |sources|
        invariant i <= |sources| && StaleSource(s, o, sources[i..]) == StaleSource(s, o, sources)
      {
        if !Readable(s, o, sources[i].0) { return Fail(SOURCE_NOT_FOUND); }
        if CurrentVersion(s, OfSource, sources[i].0) != Some(sources[i].1) { return Fail(STALE_INPUT_EVIDENCE); }
        i := i + 1;
      }
      r := Pass;
    }

    method CheckWindow(s: Store, o: Owner, kind: RunKind, q: Request) returns (r: Check)
      ensures r == Validate(s, o, CursorOf(o), kind, q)
    {
      hide StaleEntry, StaleSource, Between;
      var w, c := q.window, CursorOf(o);
      if w.memory != (kind == Memory) { return Fail(INPUT_PURPOSE_MISMATCH); }
      if w.from != (if kind == Memory then c.memory else c.observed) { return Fail(STALE_INPUT_CURSOR); }
      if !Covers(Between(s, o, s.log, w.from, w.through), w.entries) { return Fail(INPUT_COVERAGE_MISMATCH); }
      if !(w.from <= w.through <= w.target <= Max(w.from, High(s, o, c)) && w.complete == (w.through >= w.target)) { return Fail(INPUT_COVERAGE_MISMATCH); }
      r := CheckEntries(s, o, w.entries);
      if r.Pass? { r := CheckSources(s, o, q.sources); }
    }

    /** An accepted result moves the cursor of its purpose; anything else leaves all cursors where they are. */
    method Complete(s: Store, o: Owner, kind: RunKind, q: Request) returns (r: Check)
      modifies this
      ensures r == Validate(s, o, old(CursorOf(o)), kind, q)
      ensures cursors == if r.Pass? then old(cursors)[o := Accepted(s, o, old(CursorOf(o)), kind, q.window)] else old(cursors)
    {
      hide Validate;
      r := CheckWindow(s, o, kind, q);
      if r.Fail? { return; }
      var c := CursorOf(o);
      if kind == Memory {
        cursors := cursors[o := c.(memory := q.window.through, foregroundRuns := 0)];
        if q.window.complete { cursors := cursors[o := cursors[o].(target := High(s, o, cursors[o]))]; }
      } else {
        cursors := cursors[o := c.(observed := q.window.through, foregroundRuns := c.foregroundRuns + 1)];
      }
    }
  }
}
