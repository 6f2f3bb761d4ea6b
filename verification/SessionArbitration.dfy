/** Who speaks next: arbitration serves somebody whenever somebody may speak, and nobody overtakes an intention that has waited long. */
module SessionArbitration {
  import opened Wrappers
  import opened Domain
  import opened SessionTypes
  import opened SessionSteps
  import opened SessionInvariant
  import opened SessionHistory
  import opened SessionTables

  /** The candidate may be published in this round. */
  ghost predicate MaySpeak(st: State, sid: SessionId, now: nat, c: CandidateId)
    requires sid in st.sessions
  {
    Waiting(st, sid, c) && Publishable(Row(st, c, Round(st, sid, now).graceTargets), Round(st, sid, now))
  }

  ghost predicate Aging(st: State, sid: SessionId, now: nat, c: CandidateId)
    requires sid in st.sessions
  {
    c in st.candidates && now >= st.candidates[c].firstInterestedAt + st.sessions[sid].settings.agingMs
  }

  /** Some order in which the rows can be read. */
  lemma {:induction false} Listing(st: State, sid: SessionId, targets: set<AgentId>, todo: set<CandidateId>) returns (rows: seq<Eligible>)
    requires forall c :: c in todo ==> Waiting(st, sid, c)
    ensures forall c :: c in todo ==> Waiting(st, sid, c) && Row(st, c, targets) in rows
    ensures forall e :: e in rows ==> Waiting(st, sid, e.id) && e == Row(st, e.id, targets)
    decreases |todo|
  {
    rows := [];
    if todo != {} {
      var c :| c in todo;
      var rest := Listing(st, sid, targets, todo - {c});
      rows := rest + [Row(st, c, targets)];
    }
  }

  /** Somebody is elected exactly if somebody may speak. */
  lemma PickExists(st: State, sid: SessionId, now: nat)
    requires sid in st.sessions
    ensures Pick(st, sid, now).Some? <==> exists c :: MaySpeak(st, sid, now, c)
  {
    hide Publishable, Round, SelectCandidate;
    if c :| MaySpeak(st, sid, now, c) {
      var targets := Round(st, sid, now).graceTargets;
      var rows := Listing(st, sid, targets, set d | d in st.candidates && Waiting(st, sid, d));
      assert Lists(st, sid, targets, rows);
      SelectedIsPick(st, sid, now, rows);
      assert Row(st, c, targets) in rows;
    }
    if Pick(st, sid, now).Some? { assert MaySpeak(st, sid, now, Pick(st, sid, now).value); }
  }

  /** A candidate that a publication took is committed, also if the session then pauses for its limit. */
  lemma PublishedIsCommitted(st: State, sid: SessionId, c: CandidateId, id: MessageId, now: nat)
    requires Linked(st) && sid in st.sessions && c in st.candidates && st.candidates[c].text.Some?
    requires IntentProblem(st, sid, Some(st.candidates[c].agent), st.candidates[c].intent).Pass?
    ensures var st' := Publish(st, sid, c, id, now);
      && c in st'.candidates && st'.candidates[c].state == COMMITTED && sid in st'.sessions
      && PauseForLimit(st', sid).candidates[c].state == COMMITTED && PauseForLimit(st', sid).candidates.Keys == st'.candidates.Keys
  {
    hide IntentProblem, WokenAgent, WokenCandidate, WakeResumes, Members;
    AppendKeepsKeys(st, sid, id, Some(st.candidates[c].agent), st.candidates[c].text.value, st.candidates[c].intent, Some(c), now);
  }

  /** What a commit does with the candidate that is elected: it publishes it or sends it back to review. */
  lemma ElectedLeavesReady(st: State, cmd: Command)
    requires Inv(st) && Linked(st) && cmd.Commit? && cmd.sid in st.sessions && st.sessions[cmd.sid].lifecycle == RUNNING && !cmd.budgetExceeded
    requires PostsLeft(st.sessions[cmd.sid]) && cmd.now >= st.sessions[cmd.sid].lastPostAt + st.sessions[cmd.sid].settings.postGapMs
    requires cmd.id !in st.messages && Pick(st, cmd.sid, cmd.now).Some?
    ensures var c := Pick(st, cmd.sid, cmd.now).value;
      c in Next(st, cmd).candidates && Next(st, cmd).candidates[c].state in {COMMITTED, NEEDS_REVIEW}
  {
    hide AgentsOk, RunsOk, MessagesOk, MessagesDistinct, OneLiveCandidate, OneRunPerSlot, CountOk, CoverageOk, ReadyOk, RunsFenced, Publish, PauseForLimit,
         IntentProblem, Round, Publishable;
    var c := Pick(st, cmd.sid, cmd.now).value;
    PickIsReady(st, cmd.sid, cmd.now);
    assert CandidateOk(st, st.candidates[c]);
    if IntentProblem(st, cmd.sid, Some(st.candidates[c].agent), st.candidates[c].intent).Pass? { PublishedIsCommitted(st, cmd.sid, c, cmd.id, cmd.now); }
  }

  /** While a session may post and somebody may speak, every commit publishes a candidate or sends one back to review: a round is
      never spent on nobody, and who is served is not preceded by anybody else who may speak. */
  lemma {:induction false} SomebodyIsServed(slots: set<Slot>, cmds: seq<Command>, cmd: Command, d: CandidateId)
    requires cmd.Commit? && !cmd.budgetExceeded
    ensures var st, st' := Reached(slots, cmds), Reached(slots, cmds + [cmd]);
      (cmd.sid in st.sessions && st.sessions[cmd.sid].lifecycle == RUNNING && PostsLeft(st.sessions[cmd.sid]) && cmd.id !in st.messages
       && cmd.now >= st.sessions[cmd.sid].lastPostAt + st.sessions[cmd.sid].settings.postGapMs && MaySpeak(st, cmd.sid, cmd.now, d)) ==>
        exists c :: IsPick(st, cmd.sid, cmd.now, c) && c in st'.candidates && st'.candidates[c].state in {COMMITTED, NEEDS_REVIEW}
  {
    hide Inv, Linked, Reached, Next, Pick, MaySpeak, IsPick;
    ReachedNext(slots, cmds, cmd);
    var st := Reached(slots, cmds);
    if cmd.sid in st.sessions && st.sessions[cmd.sid].lifecycle == RUNNING && PostsLeft(st.sessions[cmd.sid]) && cmd.id !in st.messages &&
       cmd.now >= st.sessions[cmd.sid].lastPostAt + st.sessions[cmd.sid].settings.postGapMs && MaySpeak(st, cmd.sid, cmd.now, d) {
      PickExists(st, cmd.sid, cmd.now);
      ElectedLeavesReady(st, cmd);
      PickMaySpeak(st, cmd.sid, cmd.now);
    }
  }

  lemma PickMaySpeak(st: State, sid: SessionId, now: nat)
    requires sid in st.sessions && Pick(st, sid, now).Some?
    ensures IsPick(st, sid, now, Pick(st, sid, now).value) && MaySpeak(st, sid, now, Pick(st, sid, now).value)
  {
  }

  /** An intention that has waited for the aging time is overtaken only by older ones: as long as it may speak, whoever is
      published was interested no later. Together with DecisionsAreFinal, which keeps the time of interest, this bounds the wait. */
  lemma {:induction false} AgedIsNotOvertaken(slots: set<Slot>, cmds: seq<Command>, cmd: Command, sid: SessionId, c: CandidateId, d: CandidateId, id: MessageId)
    ensures var st, st' := Reached(slots, cmds), Reached(slots, cmds + [cmd]);
      Publishes(st, st', sid, c, id) ==>
        cmd.Commit? && cmd.sid == sid && sid in st.sessions && c in st.candidates &&
        (MaySpeak(st, sid, cmd.now, d) && Aging(st, sid, cmd.now, d) ==>
           Aging(st, sid, cmd.now, c) && st.candidates[c].firstInterestedAt <= st.candidates[d].firstInterestedAt)
  {
    hide Core, ReadyOk, RunsFenced, Linked, Reached, Next, Pick, MaySpeak, Aging, Publishes;
    ReachedNext(slots, cmds, cmd);
    var st := Reached(slots, cmds);
    if Publishes(st, Next(st, cmd), sid, c, id) { PublishedWasElected(st, cmd, sid, c, id); ElectedIsEldest(st, sid, cmd.now, c, d); }
  }

  lemma PublishedWasElected(st: State, cmd: Command, sid: SessionId, c: CandidateId, id: MessageId)
    requires Inv(st) && Linked(st) && Publishes(st, Next(st, cmd), sid, c, id)
    ensures cmd.Commit? && cmd.sid == sid && sid in st.sessions && Pick(st, sid, cmd.now) == Some(c)
  {
    hide AgentsOk, RunsOk, MessagesOk, MessagesDistinct, OneLiveCandidate, OneRunPerSlot, CountOk, CoverageOk, ReadyOk, RunsFenced, Publish, PauseForLimit,
         IntentProblem, Round, Publishable, Step;
    OnlyCommitPublishes(st, cmd, id);
    CommitPublishes(st, cmd, sid, c, id);
  }

  lemma ElectedIsEldest(st: State, sid: SessionId, now: nat, c: CandidateId, d: CandidateId)
    requires sid in st.sessions && Pick(st, sid, now) == Some(c)
    ensures c in st.candidates
    ensures MaySpeak(st, sid, now, d) && Aging(st, sid, now, d) ==> Aging(st, sid, now, c) && st.candidates[c].firstInterestedAt <= st.candidates[d].firstInterestedAt
  {
    PickMaySpeak(st, sid, now);
  }
}
