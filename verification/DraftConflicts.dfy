/** What becomes of a draft whose write was refused because another page had stored a newer row. */
module DraftConflicts {
  import opened Wrappers
  import opened Drafts

  /** The page caches an older row than the stored one and says that something is wrong with it. */
  predicate Behind(x: System, tab: TabId, k: Key) {
    && tab in x.tabs && k in x.tabs[tab].errors
    && (x.tabs[tab].ready && x.tabs[tab].generation == x.store.generation ==> RecordOf(x.tabs[tab].records, k).version < Stored(x, k).version)
  }

  /** The page itself looks at the stored row, or is opened anew. */
  predicate LooksAgain(e: Event, tab: TabId, k: Key) {
    e == OpenPage(tab) || (e.OnPage? && e.page == tab && e.key == k && (e.action.Reload? || e.action.Reread?))
  }

  lemma BehindRefuses(x: System, tab: TabId, k: Key, edit: Record -> Change, alive: bool)
    requires Behind(x, tab, k)
    ensures Through(x, tab, k, edit, alive).0 == x && Through(x, tab, k, edit, alive).1.Refused?
  {
    assert x.tabs[tab := x.tabs[tab]] == x.tabs;
  }

  /** A write whose base row is not the stored one is refused and says so, and the page is behind. */
  lemma ConflictIsBehind(x: System, tab: TabId, k: Key, alive: bool)
    requires Sound(x) && tab in x.tabs && x.tabs[tab].queue != [] && x.tabs[tab].queue[0].key == k
    requires Through(x, tab, k, row => Edited(row, x.tabs[tab].queue[0].typed.draft), alive).1 == Refused(DRAFT_CONFLICT)
    ensures var y := PersistStep(x, tab, k, alive);
      && Behind(y, tab, k) && y.store == x.store && y.tabs[tab].errors[k] == DRAFT_CONFLICT && y.tabs[tab].local == x.tabs[tab].local
  {
    assert TabOk(x, x.tabs[tab]);
  }

  /** A write to a row of which the page is not behind. */
  lemma WriteKeepsBehind(x: System, y: System, page: TabId, j: Key, edit: Record -> Change, tab: TabId, k: Key)
    requires Sound(x) && Behind(x, tab, k) && Wrote(x, y, page, j, edit) && (page == tab ==> j != k)
    ensures Behind(y, tab, k)
  {
    assert TabOk(x, x.tabs[tab]);
  }

  lemma ThroughKeepsBehind(x: System, page: TabId, j: Key, edit: Record -> Change, alive: bool, tab: TabId, k: Key)
    requires Sound(x) && Behind(x, tab, k) && page in x.tabs
    ensures Behind(Through(x, page, j, edit, alive).0, tab, k)
  {
    hide Through, Sound, Behind, Wrote;
    if page == tab && j == k { BehindRefuses(x, tab, k, edit, alive); }
    else {
      ThroughWrites(x, page, j, edit, alive);
      WriteKeepsBehind(x, Through(x, page, j, edit, alive).0, page, j, edit, tab, k);
    }
  }

  lemma RestKeepsBehind(x: System, page: TabId, t: Tab, tab: TabId, k: Key)
    requires Behind(x, tab, k) && page in x.tabs && t.ready == x.tabs[page].ready && t.generation == x.tabs[page].generation
    requires t.records == x.tabs[page].records && x.tabs[page].errors.Keys <= t.errors.Keys
    ensures Behind(WithTab(x, page, t), tab, k)
  {
  }

  lemma PageStepKeepsBehind(x: System, page: TabId, j: Key, a: Action, tab: TabId, k: Key)
    requires Sound(x) && Behind(x, tab, k) && page in x.tabs && !LooksAgain(OnPage(page, j, a), tab, k)
    requires !a.Persist? && !a.Send? && !a.Ack? && !a.Fail? && !a.Retry?
    ensures Behind(Act(x, page, j, a), tab, k)
  {
    assert TabOk(x, x.tabs[tab]);
  }

  lemma WritingStepKeepsBehind(x: System, page: TabId, j: Key, a: Action, tab: TabId, k: Key)
    requires Sound(x) && Behind(x, tab, k) && page in x.tabs
    requires a.Persist? || a.Send? || a.Ack? || a.Fail? || a.Retry?
    ensures Behind(Act(x, page, j, a), tab, k)
  {
    hide Through, Sound, Behind;
    match a
    case Persist(alive) =>
      var t := x.tabs[page];
      if t.queue != [] && t.queue[0].key == j {
        var edit := row => Edited(row, t.queue[0].typed.draft);
        ThroughKeepsBehind(x, page, j, edit, alive, tab, k);
        var (y, out) := Through(x, page, j, edit, alive);
        if page in y.tabs { RestKeepsBehind(y, page, Persisted(y.tabs[page], j, t.queue[0].typed, out), tab, k); }
      }
    case Send(replyTo, key, alive) =>
      var edit := row => Submitted(row, replyTo, key);
      ThroughKeepsBehind(x, page, j, edit, alive, tab, k);
      var (y, out) := Through(x, page, j, edit, alive);
      if page in y.tabs { RestKeepsBehind(y, page, y.tabs[page].(active := y.tabs[page].active + {j}), tab, k); }
      PostingKeepsBehind(x, y, page, j, out, tab, k);
      SendIs(x, page, j, replyTo, key, alive);
    case Ack(key, alive) =>
      if key in x.receipts { ThroughKeepsBehind(x, page, j, row => Acknowledged(row, key, x.receipts[key].message), alive, tab, k); }
    case Fail(key, rejected, alive) =>
      var edit := row => Undelivered(row, key, rejected);
      ThroughKeepsBehind(x, page, j, edit, alive, tab, k);
      var y := Through(x, page, j, edit, alive).0;
      if page in y.tabs { RestKeepsBehind(y, page, Marked(y.tabs[page], j, if rejected then DRAFT_SUBMISSION_REJECTED else DRAFT_RESULT_UNKNOWN), tab, k); }
    case Retry(alive) =>
      ThroughKeepsBehind(x, page, j, Resent, alive, tab, k);
      var (y, out) := Through(x, page, j, Resent, alive);
      if page in y.tabs { RestKeepsBehind(y, page, y.tabs[page].(active := y.tabs[page].active + {j}), tab, k); }
      PostingKeepsBehind(x, y, page, j, out, tab, k);
  }

  /** What is handed to the network and which keys were made has no part in it. */
  lemma PostingKeepsBehind(x: System, y: System, page: TabId, j: Key, out: Change, tab: TabId, k: Key)
    requires Behind(Holding(y, page, j, out), tab, k)
    ensures Behind(Posting(Holding(y, page, j, out), out), tab, k)
    ensures forall made :: Behind(Posting(Holding(y.(created := made), page, j, out), out), tab, k)
  {
  }

  lemma NextKeepsBehind(x: System, e: Event, tab: TabId, k: Key)
    requires Sound(x) && Behind(x, tab, k) && !LooksAgain(e, tab, k)
    ensures Behind(Next(x, e), tab, k)
  {
    hide Sound, Act;
    if e.OnPage? && e.page in x.tabs {
      var a := e.action;
      if a.Persist? || a.Send? || a.Ack? || a.Fail? || a.Retry? { WritingStepKeepsBehind(x, e.page, e.key, a, tab, k); }
      else { PageStepKeepsBehind(x, e.page, e.key, a, tab, k); }
    }
  }

  /** A page that is behind sends nothing new for the row and changes nothing of it before it has looked at the stored row, by a reload or for
      an acknowledgement, whatever it and all others do. */
  lemma {:induction false} ConflictBlocks(x: System, events: seq<Event>, tab: TabId, k: Key)
    requires Sound(x) && Behind(x, tab, k) && forall e :: e in events ==> !LooksAgain(e, tab, k)
    ensures Behind(Run(x, events), tab, k) && MaySend(Run(x, events).tabs[tab], k).Some?
    ensures forall edit: Record -> Change, alive: bool :: Through(Run(x, events), tab, k, edit, alive).0 == Run(x, events)
    decreases |events|
  {
    hide Sound, Next, LooksAgain, Behind, Through;
    if events == [] {
      assert MaySend(x.tabs[tab], k).Some? by { BehindMayNotSend(x, tab, k); }
      forall edit: Record -> Change, alive: bool ensures Through(x, tab, k, edit, alive).0 == x { BehindRefuses(x, tab, k, edit, alive); }
    } else {
      assert events[0] in events;
      NextKeepsSound(x, events[0]);
      NextKeepsBehind(x, events[0], tab, k);
      ConflictBlocks(Next(x, events[0]), events[1..], tab, k);
    }
  }

  lemma BehindMayNotSend(x: System, tab: TabId, k: Key)
    requires Behind(x, tab, k)
    ensures tab in x.tabs && MaySend(x.tabs[tab], k).Some?
  {
  }

  /** The page's own text is typed over, or the page is cleared. */
  predicate Retypes(e: Event, tab: TabId, k: Key) {
    e.OnPage? && e.page == tab && ((e.action.Type? && e.key == k) || e.action.Clear? || e.action.HearClear?)
  }

  predicate Shows(x: System, tab: TabId, k: Key, typed: Typed) { tab in x.tabs && k in x.tabs[tab].local && x.tabs[tab].local[k] == typed }

  lemma NextKeepsText(x: System, e: Event, tab: TabId, k: Key, typed: Typed)
    requires Behind(x, tab, k) && Shows(x, tab, k, typed) && !LooksAgain(e, tab, k) && !Retypes(e, tab, k)
    ensures Shows(Next(x, e), tab, k, typed)
  {
    if e.OnPage? && e.page in x.tabs {
      var a := e.action;
      if a.Persist? || a.Send? || a.Ack? || a.Fail? || a.Retry? { WritingStepKeepsText(x, e.page, e.key, a, tab, k, typed); }
    }
  }

  lemma WriteKeepsText(x: System, page: TabId, j: Key, edit: Record -> Change, alive: bool, tab: TabId, k: Key, typed: Typed)
    requires Shows(x, tab, k, typed) && page in x.tabs
    ensures Shows(Through(x, page, j, edit, alive).0, tab, k, typed)
  {
    hide Through;
    ThroughWrites(x, page, j, edit, alive);
  }

  lemma RestKeepsText(x: System, page: TabId, t: Tab, tab: TabId, k: Key, typed: Typed)
    requires Shows(x, tab, k, typed) && page in x.tabs && (page == tab ==> k in t.local && t.local[k] == typed)
    ensures Shows(WithTab(x, page, t), tab, k, typed)
  {
  }

  lemma PersistKeepsText(x: System, page: TabId, j: Key, alive: bool, tab: TabId, k: Key, typed: Typed)
    requires Behind(x, tab, k) && Shows(x, tab, k, typed) && page in x.tabs
    ensures Shows(PersistStep(x, page, j, alive), tab, k, typed)
  {
    hide Through, Behind;
    var t := x.tabs[page];
    if t.queue != [] && t.queue[0].key == j {
      var first := t.queue[0].typed;
      var edit := row => Edited(row, first.draft);
      WriteKeepsText(x, page, j, edit, alive, tab, k, typed);
      var (y, out) := Through(x, page, j, edit, alive);
      if page == tab && j == k { BehindRefuses(x, tab, k, edit, alive); }
      if page in y.tabs { RestKeepsText(y, page, Persisted(y.tabs[page], j, first, out), tab, k, typed); }
    }
  }

  lemma SubmissionKeepsText(x: System, y: System, page: TabId, j: Key, out: Change, tab: TabId, k: Key, typed: Typed)
    requires Shows(y, tab, k, typed)
    ensures forall made :: Shows(Posting(Holding(y.(created := made), page, j, out), out), tab, k, typed)
    ensures Shows(Posting(Holding(y, page, j, out), out), tab, k, typed)
  {
  }

  lemma WritingStepKeepsText(x: System, page: TabId, j: Key, a: Action, tab: TabId, k: Key, typed: Typed)
    requires Behind(x, tab, k) && Shows(x, tab, k, typed) && page in x.tabs && (a.Persist? || a.Send? || a.Ack? || a.Fail? || a.Retry?)
    ensures Shows(Act(x, page, j, a), tab, k, typed)
  {
    hide Through, Behind, Shows, SendStep, PersistStep, Posting, Holding;
    match a
    case Persist(alive) => PersistKeepsText(x, page, j, alive, tab, k, typed);
    case Send(replyTo, key, alive) =>
      var edit := row => Submitted(row, replyTo, key);
      WriteKeepsText(x, page, j, edit, alive, tab, k, typed);
      var (y, out) := Through(x, page, j, edit, alive);
      SubmissionKeepsText(x, y, page, j, out, tab, k, typed);
      SendIs(x, page, j, replyTo, key, alive);
    case Ack(key, alive) => if key in x.receipts { WriteKeepsText(x, page, j, row => Acknowledged(row, key, x.receipts[key].message), alive, tab, k, typed); }
    case Fail(key, rejected, alive) => FailKeepsText(x, page, j, key, rejected, alive, tab, k, typed);
    case Retry(alive) =>
      WriteKeepsText(x, page, j, Resent, alive, tab, k, typed);
      var (y, out) := Through(x, page, j, Resent, alive);
      SubmissionKeepsText(x, y, page, j, out, tab, k, typed);
  }

  lemma FailKeepsText(x: System, page: TabId, j: Key, key: OutboxKey, rejected: bool, alive: bool, tab: TabId, k: Key, typed: Typed)
    requires Shows(x, tab, k, typed) && page in x.tabs
    ensures Shows(FailStep(x, page, j, key, rejected, alive), tab, k, typed)
  {
    hide Through;
    WriteKeepsText(x, page, j, row => Undelivered(row, key, rejected), alive, tab, k, typed);
  }

  /** What was typed stays visible until it is typed over, the page is cleared, or the page looks at the stored row. */
  lemma {:induction false} ConflictKeepsText(x: System, events: seq<Event>, tab: TabId, k: Key, typed: Typed)
    requires Sound(x) && Behind(x, tab, k) && Shows(x, tab, k, typed)
    requires forall e :: e in events ==> !LooksAgain(e, tab, k) && !Retypes(e, tab, k)
    ensures Shows(Run(x, events), tab, k, typed)
    decreases |events|
  {
    hide Sound, Next, LooksAgain, Behind, Retypes, Shows;
    if events != [] {
      assert events[0] in events;
      NextKeepsSound(x, events[0]);
      NextKeepsBehind(x, events[0], tab, k);
      NextKeepsText(x, events[0], tab, k, typed);
      ConflictKeepsText(Next(x, events[0]), events[1..], tab, k, typed);
    }
  }

  /** A reading for an acknowledgement does not touch it either. */
  lemma ReadingKeepsText(x: System, tab: TabId, k: Key, typed: Typed)
    requires Shows(x, tab, k, typed)
    ensures Shows(Act(x, tab, k, Reread), tab, k, typed)
  {
  }

  // ---------------------------------------------------------------- how long a conflict lasts

  /** The page works on the present generation. */
  predicate Present(x: System, tab: TabId) { tab in x.tabs && x.tabs[tab].ready && x.tabs[tab].generation == x.store.generation }

  predicate Reports(x: System, tab: TabId, k: Key) { tab in x.tabs && k in x.tabs[tab].errors }

  /** Whatever follows, the page goes on to report an error of the row until it looks at the stored row. */
  ghost predicate Lasts(x: System, tab: TabId, k: Key) {
    forall more: seq<Event> :: (forall e :: e in more ==> !LooksAgain(e, tab, k)) ==> Reports(Run(x, more), tab, k)
  }

  predicate CaughtUp(x: System, tab: TabId, k: Key) { Present(x, tab) && RecordOf(x.tabs[tab].records, k).version == Stored(x, k).version }

  /** A waiting write of a page that has the stored row is stored and clears the error. */
  lemma WriteClears(x: System, tab: TabId, k: Key)
    requires CaughtUp(x, tab, k) && x.tabs[tab].queue != [] && x.tabs[tab].queue[0].key == k
    ensures var y := Next(x, OnPage(tab, k, Persist(true)));
      tab in y.tabs && k !in y.tabs[tab].errors && Stored(y, k).draft == x.tabs[tab].queue[0].typed.draft
  {
  }

  lemma OtherWrite(x: System, tab: TabId, k: Key)
    requires CaughtUp(x, tab, k) && x.tabs[tab].queue != [] && x.tabs[tab].queue[0].key != k
    ensures var y := Next(x, OnPage(tab, x.tabs[tab].queue[0].key, Persist(true)));
      CaughtUp(y, tab, k) && y.tabs[tab].queue == x.tabs[tab].queue[1..]
  {
  }

  /** Without another look at the stored row, one more typed draft and the writes that wait before it clear the error; with nothing waiting,
      that draft replaces the stored one. */
  lemma {:induction false} OneDraftClears(x: System, tab: TabId, k: Key, draft: Draft) returns (more: seq<Event>)
    requires CaughtUp(x, tab, k)
    ensures forall e :: e in more ==> e.OnPage? && e.page == tab && (e.action.Type? || e.action.Persist?)
    ensures var y := Run(x, more); tab in y.tabs && k !in y.tabs[tab].errors
    ensures x.tabs[tab].queue == [] ==> more == [OnPage(tab, k, Type(draft)), OnPage(tab, k, Persist(true))] && Stored(Run(x, more), k).draft == draft
    decreases |x.tabs[tab].queue|
  {
    hide Act;
    var queue := x.tabs[tab].queue;
    if queue == [] {
      var typed := Next(x, OnPage(tab, k, Type(draft)));
      TypingWaits(x, tab, k, draft);
      WriteClears(typed, tab, k);
      more := [OnPage(tab, k, Type(draft)), OnPage(tab, k, Persist(true))];
      assert more[1..] == [OnPage(tab, k, Persist(true))] && more[1..][1..] == [];
      assert Run(typed, more[1..]) == Next(typed, OnPage(tab, k, Persist(true)));
    } else if queue[0].key == k {
      WriteClears(x, tab, k);
      more := [OnPage(tab, k, Persist(true))];
      assert more[1..] == [];
    } else {
      OtherWrite(x, tab, k);
      var first := OnPage(tab, queue[0].key, Persist(true));
      var rest := OneDraftClears(Next(x, first), tab, k, draft);
      more := [first] + rest;
      assert more[1..] == rest;
    }
  }

  lemma TypingWaits(x: System, tab: TabId, k: Key, draft: Draft)
    requires CaughtUp(x, tab, k) && x.tabs[tab].queue == []
    ensures var y := Next(x, OnPage(tab, k, Type(draft)));
      CaughtUp(y, tab, k) && |y.tabs[tab].queue| == 1 && y.tabs[tab].queue[0].key == k && y.tabs[tab].queue[0].typed.draft == draft
  {
  }

  lemma ReadingCatchesUp(x: System, tab: TabId, k: Key)
    requires Behind(x, tab, k) && Present(x, tab)
    ensures CaughtUp(Next(x, OnPage(tab, k, Reread)), tab, k) && !Behind(Next(x, OnPage(tab, k, Reread)), tab, k)
  {
    assert k in x.store.records;
  }

  lemma Lagging(x: System, tab: TabId, k: Key)
    requires Sound(x) && Present(x, tab)
    ensures Behind(x, tab, k) <==> Reports(x, tab, k) && !CaughtUp(x, tab, k)
  {
    assert TabOk(x, x.tabs[tab]);
    StoredVersion(x, tab, k);
  }

  lemma StoredVersion(x: System, tab: TabId, k: Key)
    requires Sound(x) && Present(x, tab)
    ensures RecordOf(x.tabs[tab].records, k).version <= Stored(x, k).version
  {
    assert TabOk(x, x.tabs[tab]);
  }

  lemma BehindReports(x: System, tab: TabId, k: Key)
    requires Behind(x, tab, k)
    ensures Reports(x, tab, k)
  {
  }

  /** Exactly as long as a page of the present generation is behind, its error lasts until it looks at the stored row. */
  lemma LastsExactly(x: System, tab: TabId, k: Key)
    requires Sound(x) && Present(x, tab)
    ensures Lasts(x, tab, k) <==> Behind(x, tab, k)
  {
    hide Sound, Behind, Present, CaughtUp, Reports, LooksAgain, MaySend, Through;
    Lagging(x, tab, k);
    if Behind(x, tab, k) {
      forall more: seq<Event> | forall e :: e in more ==> !LooksAgain(e, tab, k) ensures Reports(Run(x, more), tab, k) {
        ConflictBlocks(x, more, tab, k);
        BehindReports(Run(x, more), tab, k);
      }
    } else if !Reports(x, tab, k) {
      var none: seq<Event> := [];
      assert Run(x, none) == x;
      assert !Reports(Run(x, none), tab, k);
    } else {
      var more := OneDraftClears(x, tab, k, Draft(1, None));
      TypingIsNoLook(more, tab, k);
      assert !Reports(Run(x, more), tab, k) by { ClearedIsSilent(Run(x, more), tab, k); }
    }
  }

  lemma TypingIsNoLook(more: seq<Event>, tab: TabId, k: Key)
    requires forall e :: e in more ==> e.OnPage? && e.page == tab && (e.action.Type? || e.action.Persist?)
    ensures forall e :: e in more ==> !LooksAgain(e, tab, k)
  {
  }

  lemma ClearedIsSilent(x: System, tab: TabId, k: Key)
    requires tab in x.tabs && k !in x.tabs[tab].errors
    ensures !Reports(x, tab, k)
  {
  }

  /** The user reloads the row, or opens the page anew. */
  predicate Reloads(e: Event, tab: TabId, k: Key) { e == OpenPage(tab) || (e.OnPage? && e.page == tab && e.key == k && e.action.Reload?) }

  /** Exactly how long a conflict keeps its promise, over all histories without a reload: as long as the page has not read the row for an
      acknowledgement, its error lasts and it is behind; right after such a reading the error lasts no longer, and one typed draft stores the
      page's text over the other page's and clears it. */
  lemma ConflictLastsExactly(x: System, events: seq<Event>, tab: TabId, k: Key, draft: Draft)
    requires Sound(x) && Behind(x, tab, k) && forall e :: e in events ==> !Reloads(e, tab, k)
    requires Present(Run(x, events), tab)
    ensures Lasts(Run(x, events), tab, k) <==> Behind(Run(x, events), tab, k)
    ensures (forall e :: e in events ==> e != OnPage(tab, k, Reread)) ==> Lasts(Run(x, events), tab, k)
    ensures Lasts(Run(x, events), tab, k) ==>
      var read := Run(x, events + [OnPage(tab, k, Reread)]);
      !Lasts(read, tab, k) && tab in read.tabs && (read.tabs[tab].queue == [] ==>
        var y := Run(read, [OnPage(tab, k, Type(draft)), OnPage(tab, k, Persist(true))]);
        tab in y.tabs && k !in y.tabs[tab].errors && Stored(y, k).draft == draft)
  {
    hide Sound, Behind, Lasts, Through, MaySend, Next, CaughtUp;
    var y := Run(x, events);
    RunKeepsSound(x, events);
    LastsExactly(y, tab, k);
    if forall e :: e in events ==> e != OnPage(tab, k, Reread) { ConflictBlocks(x, events, tab, k); }
    if Lasts(y, tab, k) {
      var read := Next(y, OnPage(tab, k, Reread));
      RunOneMore(x, events, OnPage(tab, k, Reread));
      NextKeepsSound(y, OnPage(tab, k, Reread));
      ReadingCatchesUp(y, tab, k);
      CaughtUpIsPresent(read, tab, k);
      LastsExactly(read, tab, k);
      var more := OneDraftClears(read, tab, k, draft);
    }
  }

  lemma CaughtUpIsPresent(x: System, tab: TabId, k: Key)
    requires CaughtUp(x, tab, k)
    ensures Present(x, tab)
  {
  }

  lemma {:induction false} RunOneMore(x: System, events: seq<Event>, e: Event)
    ensures Run(x, events + [e]) == Next(Run(x, events), e)
    decreases |events|
  {
    hide Next;
    if events == [] {
      assert (events + [e])[1..] == [];
    } else {
      assert (events + [e])[1..] == events[1..] + [e];
      RunOneMore(Next(x, events[0]), events[1..], e);
    }
  }

  /** An acknowledgement may clear the conflict at once: after it has read the stored row its own write clears the error if and only if the server has a receipt for the submission that the row shows; what was typed stays only on the page, and
      the next submission is the stored text. */
  lemma AckForgetsConflict(x: System, tab: TabId, k: Key, key: OutboxKey)
    requires Sound(x) && Behind(x, tab, k) && x.tabs[tab].ready && x.tabs[tab].generation == x.store.generation
    ensures var y := Act(Act(x, tab, k, Reread), tab, k, Ack(key, true));
      && tab in y.tabs && y.tabs[tab].local == x.tabs[tab].local
      && (k !in y.tabs[tab].errors <==> key in x.receipts && Stored(x, k).outbox.Some? && Stored(x, k).outbox.value.key == key)
      && (k !in y.tabs[tab].errors ==>
            (MaySend(y.tabs[tab], k).None? <==> k !in x.tabs[tab].active && Stored(y, k).draft.text != 0) &&
            forall replyTo :: PayloadOf(RecordOf(y.tabs[tab].records, k), replyTo) == PayloadOf(Stored(y, k), replyTo))
  {
    assert k in x.store.records;
  }

  /** A write that waits already replaces the draft of the other page as soon as the row has been read. */
  lemma RereadOverwrites(x: System, tab: TabId, k: Key)
    requires Sound(x) && Behind(x, tab, k) && x.tabs[tab].ready && x.tabs[tab].generation == x.store.generation
    requires x.tabs[tab].queue != [] && x.tabs[tab].queue[0].key == k
    ensures PersistStep(x, tab, k, true).store == x.store
    ensures Stored(PersistStep(Act(x, tab, k, Reread), tab, k, true), k).draft == x.tabs[tab].queue[0].typed.draft
  {
    assert k in x.store.records;
  }

  lemma AckOfCurrent(x: System, tab: TabId, k: Key, key: OutboxKey)
    requires CaughtUp(x, tab, k)
    ensures CaughtUp(Next(x, OnPage(tab, k, Ack(key, true))), tab, k) && Next(x, OnPage(tab, k, Ack(key, true))).tabs[tab].queue == x.tabs[tab].queue
  {
  }

  lemma AckOfBehind(x: System, tab: TabId, k: Key, key: OutboxKey)
    requires Behind(x, tab, k)
    ensures Next(x, OnPage(tab, k, Ack(key, true))) == x
  {
    hide Through;
    if key in x.receipts { BehindRefuses(x, tab, k, row => Acknowledged(row, key, x.receipts[key].message), true); }
  }

  lemma ReadingKeepsQueue(x: System, tab: TabId, k: Key)
    requires Present(x, tab)
    ensures var y := Next(x, OnPage(tab, k, Reread)); tab in y.tabs && y.tabs[tab].queue == x.tabs[tab].queue
  {
  }

  /** So any acknowledgement at all, whether the row still shows its submission or not and whether the server has a receipt or not, ends the
      conflict: its first attempt is refused, it reads the row, and after its second attempt one typed draft replaces the other page's. */
  lemma AcknowledgingEndsIt(x: System, tab: TabId, k: Key, key: OutboxKey, draft: Draft)
    requires Sound(x) && Behind(x, tab, k) && Present(x, tab) && x.tabs[tab].queue == []
    ensures Next(x, OnPage(tab, k, Ack(key, true))) == x
    ensures var acknowledged := Next(Next(x, OnPage(tab, k, Reread)), OnPage(tab, k, Ack(key, true)));
      var y := Run(acknowledged, [OnPage(tab, k, Type(draft)), OnPage(tab, k, Persist(true))]);
      tab in y.tabs && k !in y.tabs[tab].errors && Stored(y, k).draft == draft
  {
    hide CaughtUp, Next, Behind, Sound, Run;
    AckOfBehind(x, tab, k, key);
    var read := Next(x, OnPage(tab, k, Reread));
    ReadingCatchesUp(x, tab, k);
    ReadingKeepsQueue(x, tab, k);
    CaughtUpIsPresent(read, tab, k);
    AckOfCurrent(read, tab, k, key);
    CaughtUpIsPresent(Next(read, OnPage(tab, k, Ack(key, true))), tab, k);
    var more := OneDraftClears(Next(read, OnPage(tab, k, Ack(key, true))), tab, k, draft);
  }
}
