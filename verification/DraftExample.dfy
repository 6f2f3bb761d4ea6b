/** Two pages over one row: an acknowledgement lets a page send a text that it does not show. */
module DraftExample {
  import opened Wrappers
  import opened Drafts
  import opened DraftConflicts

  function Text(n: nat): Draft { Draft(n, None) }

  /** Page 0 stores text 1 and submits it as 7; the server publishes it, but the answer is lost. */
  const Submission: seq<Event> := [OpenPage(0), OnPage(0, 0, Type(Text(1))), OnPage(0, 0, Persist(true)), OnPage(0, 0, Send(None, 7, true)), Arrive(Post(7, Payload(1, None, [])), 9, true)]

  /** Page 1 opens, page 0 stores text 2, and page 1 types text 3, which is refused as a conflict. */
  const Quarrel: seq<Event> := [OpenPage(1), OnPage(0, 0, Type(Text(2))), OnPage(0, 0, Persist(true)), OnPage(1, 0, Type(Text(3))), OnPage(1, 0, Persist(true))]

  /** Page 1 asks for the result of submission 7. */
  const Inquiry: seq<Event> := [OnPage(1, 0, Reread), OnPage(1, 0, Ack(7, true))]

  const Sent: Outbox := Outbox(7, Payload(1, None, []), 1, SENDING, None)

  function Row(version: nat, editVersion: nat, text: nat): Record { Record(version, editVersion, Text(text), Some(Sent)) }

  function PageAt(row: Record, local: map<Key, Typed>, queue: seq<Queued>, sequence: nat, active: set<Key>, errors: map<Key, Code>): Tab {
    Tab(true, 0, map[0 := row], local, queue, sequence, active, errors)
  }

  function At(row: Record, tabs: map<TabId, Tab>): System {
    System(Store(0, map[0 := row]), tabs, {Post(7, Payload(1, None, []))}, map[7 := Receipt(Payload(1, None, []), 9)], [Post(7, Payload(1, None, []))], map[7 := Payload(1, None, [])])
  }

  const Before: System := At(Row(2, 1, 1), map[0 := PageAt(Row(2, 1, 1), map[], [], 1, {0}, map[])])

  const Behind1: System := At(Row(3, 2, 2), map[
    0 := PageAt(Row(3, 2, 2), map[], [], 2, {0}, map[]),
    1 := PageAt(Row(2, 1, 1), map[0 := Typed(Text(3), 1)], [], 1, {}, map[0 := DRAFT_CONFLICT])])

  /** Page 0 with its first edit, before and after it is stored. */
  function Early(records: map<Key, Record>, local: map<Key, Typed>, queue: seq<Queued>): System {
    System(Store(0, records), map[0 := Tab(true, 0, records, local, queue, 1, {}, map[])], {}, map[], [], map[])
  }

  lemma Editing()
    ensures Next(Next(Next(Begin, Submission[0]), Submission[1]), Submission[2]) == Early(map[0 := Record(1, 1, Text(1), None)], map[], [])
  {
    assert Next(Begin, Submission[0]).tabs[0] == Tab(true, 0, map[], map[], [], 0, {}, map[]);
    var typed := Next(Next(Begin, Submission[0]), Submission[1]);
    assert typed.tabs[0].local == map[0 := Typed(Text(1), 1)];
    assert typed.tabs[0].queue == [Queued(0, Typed(Text(1), 1))];
    assert typed == Early(map[], map[0 := Typed(Text(1), 1)], [Queued(0, Typed(Text(1), 1))]);
  }

  lemma Sending()
    ensures Next(Next(Early(map[0 := Record(1, 1, Text(1), None)], map[], []), Submission[3]), Submission[4]) == Before
  {
    var x := Early(map[0 := Record(1, 1, Text(1), None)], map[], []);
    var y := Next(x, Submission[3]);
    assert MaySend(x.tabs[0], 0).None?;
    assert y.store == Store(0, map[0 := Row(2, 1, 1)]);
    assert y.posts == {Post(7, Payload(1, None, []))};
    assert y.created == map[7 := Payload(1, None, [])];
    var t := y.tabs[0];
    assert t.records == map[0 := Row(2, 1, 1)];
    assert t.active == {0};
    assert y.tabs == map[0 := PageAt(Row(2, 1, 1), map[], [], 1, {0}, map[])];
  }

  lemma Submitting()
    ensures Run(Begin, Submission) == Before
  {
    hide Next;
    FiveSteps(Begin, Submission);
    Editing();
    Sending();
  }

  lemma FiveSteps(x: System, events: seq<Event>)
    requires |events| == 5
    ensures Run(x, events) == Next(Next(Next(Next(Next(x, events[0]), events[1]), events[2]), events[3]), events[4])
  {
    hide Next;
    var rest := events[2..];
    TwoSteps(x, events);
    TwoSteps(Next(Next(x, events[0]), events[1]), rest);
    assert rest[2..] == [events[4]];
  }

  lemma TwoSteps(x: System, events: seq<Event>)
    requires |events| >= 2
    ensures Run(x, events) == Run(Next(Next(x, events[0]), events[1]), events[2..])
  {
    hide Next;
    assert events[1..][1..] == events[2..];
  }

  /** Text 2 is stored, and page 1 still has the row with text 1. */
  const Apart: System := At(Row(3, 2, 2), map[0 := PageAt(Row(3, 2, 2), map[], [], 2, {0}, map[]), 1 := PageAt(Row(2, 1, 1), map[], [], 0, {}, map[])])

  lemma Parting()
    ensures Next(Next(Next(Before, Quarrel[0]), Quarrel[1]), Quarrel[2]) == Apart
  {
    var met := Next(Before, Quarrel[0]);
    assert met.tabs[1] == PageAt(Row(2, 1, 1), map[], [], 0, {}, map[]);
    var typed := Next(met, Quarrel[1]);
    assert typed.tabs[0].local == map[0 := Typed(Text(2), 2)];
    assert typed.tabs[0].queue == [Queued(0, Typed(Text(2), 2))];
    var stored := Next(typed, Quarrel[2]);
    assert stored.store.records == map[0 := Row(3, 2, 2)];
    assert stored.tabs[0].records == map[0 := Row(3, 2, 2)];
    assert stored.tabs[0].local == map[];
    assert stored.tabs == Apart.tabs;
  }

  lemma Colliding()
    ensures Next(Next(Apart, Quarrel[3]), Quarrel[4]) == Behind1
  {
    var typed := Next(Apart, Quarrel[3]);
    assert typed.tabs[1].local == map[0 := Typed(Text(3), 1)];
    assert typed.tabs[1].queue == [Queued(0, Typed(Text(3), 1))];
    var refused := Next(typed, Quarrel[4]);
    assert refused.store == Apart.store;
    assert refused.tabs[1].errors == map[0 := DRAFT_CONFLICT];
    assert refused.tabs == Behind1.tabs;
  }

  lemma Quarrelling()
    ensures Run(Before, Quarrel) == Behind1
  {
    hide Next;
    FiveSteps(Before, Quarrel);
    Parting();
    Colliding();
  }

  lemma Inquiring()
    ensures var y := Run(Behind1, Inquiry);
      && y.tabs.Keys == {0, 1} && y.tabs[1].errors == map[] && 0 in y.tabs[1].local && y.tabs[1].local[0].draft == Text(3) && MaySend(y.tabs[1], 0).None?
      && PayloadOf(RecordOf(y.tabs[1].records, 0), None).text == 2
  {
    TwoSteps(Behind1, Inquiry);
  }

  /** The page was behind and said so; the inquiry leaves no error, the page still shows text 3, and what it may now send is text 2. */
  lemma ConflictCanBeForgotten()
    ensures var x := Run(Run(Begin, Submission), Quarrel);
      var y := Run(x, Inquiry);
      && 1 in x.tabs && Behind(x, 1, 0) && 0 in x.tabs[1].errors && x.tabs[1].errors[0] == DRAFT_CONFLICT
      && 1 in y.tabs && 0 !in y.tabs[1].errors && 0 in y.tabs[1].local && y.tabs[1].local[0].draft.text == 3
      && MaySend(y.tabs[1], 0).None? && PayloadOf(RecordOf(y.tabs[1].records, 0), None).text == 2
  {
    hide Run, MaySend, PayloadOf;
    Submitting();
    Quarrelling();
    Inquiring();
  }

  // ---------------------------------------------------------------- without a receipt

  /** Page 1 opens, page 0 hears that submission 7 has arrived, writes text 2 and submits it as 8; page 1 types text 3 and is refused. */
  const Newer: seq<Event> := [OpenPage(1), OnPage(0, 0, Ack(7, true)), OnPage(0, 0, Type(Text(2))), OnPage(0, 0, Persist(true)), OnPage(0, 0, Release)]

  const Clash: seq<Event> := [OnPage(0, 0, Send(None, 8, true)), OnPage(1, 0, Type(Text(3))), OnPage(1, 0, Persist(true))]

  const Arrived: Outbox := Outbox(7, Payload(1, None, []), 1, CONFIRMED, Some(9))

  const Second: Outbox := Outbox(8, Payload(2, None, []), 2, SENDING, None)

  const Old: Tab := PageAt(Row(2, 1, 1), map[], [], 0, {}, map[])

  const Acked: Record := Record(3, 1, Text(0), Some(Arrived))

  const Written: Record := Record(4, 2, Text(2), Some(Arrived))

  const Resubmitted: Record := Record(5, 2, Text(2), Some(Second))

  lemma Acknowledging()
    ensures Next(Next(Before, Newer[0]), Newer[1]) == At(Acked, map[0 := PageAt(Acked, map[], [], 1, {0}, map[]), 1 := Old])
  {
    var met := Next(Before, Newer[0]);
    assert met.tabs[1] == Old;
    var acked := Next(met, Newer[1]);
    assert acked.store.records == map[0 := Acked];
    assert acked.tabs[0].records == map[0 := Acked];
    assert acked.tabs == map[0 := PageAt(Acked, map[], [], 1, {0}, map[]), 1 := Old];
  }

  lemma Writing()
    ensures var x := At(Acked, map[0 := PageAt(Acked, map[], [], 1, {0}, map[]), 1 := Old]);
      Next(Next(Next(x, Newer[2]), Newer[3]), Newer[4]) == Ready
  {
    var x := At(Acked, map[0 := PageAt(Acked, map[], [], 1, {0}, map[]), 1 := Old]);
    var typed := Next(x, Newer[2]);
    assert typed.tabs[0].local == map[0 := Typed(Text(2), 2)];
    assert typed.tabs[0].queue == [Queued(0, Typed(Text(2), 2))];
    var stored := Next(typed, Newer[3]);
    assert stored.store.records == map[0 := Written];
    assert stored.tabs[0].records == map[0 := Written];
    assert stored.tabs[0].local == map[];
    assert stored.tabs == map[0 := PageAt(Written, map[], [], 2, {0}, map[]), 1 := Old];
    assert Next(stored, Newer[4]).tabs[0].active == {};
    assert Next(stored, Newer[4]).tabs == map[0 := PageAt(Written, map[], [], 2, {}, map[]), 1 := Old];
  }

  const Ready: System := At(Written, map[0 := PageAt(Written, map[], [], 2, {}, map[]), 1 := Old])

  lemma SendingAgain()
    ensures var y := Next(Ready, Clash[0]);
      y.store == Store(0, map[0 := Resubmitted]) && 1 in y.tabs && y.tabs[1] == Old && y.receipts == Ready.receipts
  {
    assert MaySend(Ready.tabs[0], 0).None?;
    assert Next(Ready, Clash[0]).store.records == map[0 := Resubmitted];
  }

  lemma TypingLate(x: System)
    requires x.store == Store(0, map[0 := Resubmitted]) && 1 in x.tabs && x.tabs[1] == Old
    ensures var y := Next(x, Clash[1]);
      && y == x.(tabs := y.tabs) && 1 in y.tabs
      && y.tabs[1] == PageAt(Row(2, 1, 1), map[0 := Typed(Text(3), 1)], [Queued(0, Typed(Text(3), 1))], 1, {}, map[])
  {
    var y := Next(x, Clash[1]);
    assert y.tabs[1].local == map[0 := Typed(Text(3), 1)];
    assert y.tabs[1].queue == [Queued(0, Typed(Text(3), 1))];
  }

  lemma Refusing(x: System)
    requires x.store == Store(0, map[0 := Resubmitted]) && 1 in x.tabs
    requires x.tabs[1] == PageAt(Row(2, 1, 1), map[0 := Typed(Text(3), 1)], [Queued(0, Typed(Text(3), 1))], 1, {}, map[])
    ensures var y := Next(x, Clash[2]);
      && Behind(y, 1, 0) && Present(y, 1) && y.tabs[1].queue == [] && y.tabs[1].errors[0] == DRAFT_CONFLICT
      && Stored(y, 0) == Resubmitted && y.receipts == x.receipts
  {
  }

  /** The row shows submission 8, of which the server knows nothing. */
  lemma Clashing()
    ensures var y := Next(Next(Next(Ready, Clash[0]), Clash[1]), Clash[2]);
      && Behind(y, 1, 0) && Present(y, 1) && y.tabs[1].queue == [] && y.tabs[1].errors[0] == DRAFT_CONFLICT
      && Stored(y, 0) == Resubmitted && 8 !in y.receipts
  {
    hide Next, Behind, Present, Stored;
    SendingAgain();
    TypingLate(Next(Ready, Clash[0]));
    Refusing(Next(Next(Ready, Clash[0]), Clash[1]));
    assert 8 !in Ready.receipts;
  }

  lemma ThreeSteps(x: System, events: seq<Event>)
    requires |events| == 3
    ensures Run(x, events) == Next(Next(Next(x, events[0]), events[1]), events[2])
  {
    hide Next;
    TwoSteps(x, events);
    assert events[2..] == [events[2]];
  }

  /** Page 1 asks for the result of its own submission 7, which the row no longer shows, and types on: its text 4 replaces text 2 of page 0
      and no error is left, although nobody reloaded and the server has no receipt for the submission that the row shows. */
  lemma OlderAcknowledgementOverwrites()
    ensures var x := Run(Run(Run(Begin, Submission), Newer), Clash);
      var asked := Next(Next(Next(x, OnPage(1, 0, Ack(7, true))), OnPage(1, 0, Reread)), OnPage(1, 0, Ack(7, true)));
      var y := Run(asked, [OnPage(1, 0, Type(Text(4))), OnPage(1, 0, Persist(true))]);
      && Behind(x, 1, 0) && x.tabs[1].errors[0] == DRAFT_CONFLICT && Stored(x, 0) == Resubmitted && 8 !in x.receipts
      && 1 in y.tabs && 0 !in y.tabs[1].errors && Stored(y, 0).draft == Text(4)
  {
    hide Run, Next, Behind, Present, Sound;
    Submitting();
    FiveSteps(Before, Newer);
    Acknowledging();
    Writing();
    ThreeSteps(Run(Before, Newer), Clash);
    Clashing();
    var x := Run(Run(Run(Begin, Submission), Newer), Clash);
    BeginIsSound();
    RunKeepsSound(Begin, Submission);
    RunKeepsSound(Before, Newer);
    RunKeepsSound(Run(Before, Newer), Clash);
    AcknowledgingEndsIt(x, 1, 0, 7, Text(4));
  }
}
