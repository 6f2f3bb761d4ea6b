/** How the row updates that a transaction issues one after another add up to a step of SessionSteps. */
module SessionTables {
  import opened Wrappers
  import opened Domain
  import opened SessionTypes
  import opened SessionSteps
  import opened SessionInvariant
  import opened SessionResults
  import opened SessionGrowth
  import opened SessionHistory

  // ---------------------------------------------------------------- waking one agent after another

  lemma WakeLinks(st: State, who: map<AgentId, Trigger>, author: Option<AgentId>, now: nat)
    requires Linked(st)
    ensures Linked(WakeAll(st, who, author, now))
    ensures OneLiveCandidate(st) ==> OneLiveCandidate(WakeAll(st, who, author, now))
  {
    hide WakeAll;
    WakeSettles(st, who, author, now);
    var st' := WakeAll(st, who, author, now);
    forall a | a in st'.agents ensures st'.agents[a].session in st'.sessions { assert SameOwner(st.agents[a], st'.agents[a]); }
    forall c | c in st'.candidates ensures OnlyMoved(st.candidates[c], st'.candidates[c]) {}
  }

  /** Waking one more agent is independent of those woken before. */
  lemma WakeOneMore(st: State, who: map<AgentId, Trigger>, a: AgentId, trigger: Trigger, author: Option<AgentId>, now: nat)
    requires Linked(st) && a !in who
    ensures Linked(WakeAll(st, who, author, now))
    ensures WakeAll(WakeAll(st, who, author, now), map[a := trigger], author, now) == WakeAll(st, who[a := trigger], author, now)
  {
    hide WokenAgent, WokenCandidate, WakeResumes, OneLiveCandidate;
    WakeLinks(st, who, author, now);
    AgentsOneMore(st, who, a, trigger, author, now);
    CandidatesOneMore(st, who, a, trigger, author, now);
  }

  lemma AgentsOneMore(st: State, who: map<AgentId, Trigger>, a: AgentId, trigger: Trigger, author: Option<AgentId>, now: nat)
    requires Linked(st) && a !in who && Linked(WakeAll(st, who, author, now))
    ensures WakeAll(WakeAll(st, who, author, now), map[a := trigger], author, now).agents == WakeAll(st, who[a := trigger], author, now).agents
  {
    hide WokenAgent, WokenCandidate, WakeResumes;
  }

  lemma CandidatesOneMore(st: State, who: map<AgentId, Trigger>, a: AgentId, trigger: Trigger, author: Option<AgentId>, now: nat)
    requires Linked(st) && a !in who && Linked(WakeAll(st, who, author, now))
    ensures WakeAll(WakeAll(st, who, author, now), map[a := trigger], author, now).candidates == WakeAll(st, who[a := trigger], author, now).candidates
  {
    forall c | c in st.candidates
      ensures WakeAll(WakeAll(st, who, author, now), map[a := trigger], author, now).candidates[c] == WakeAll(st, who[a := trigger], author, now).candidates[c]
    {
      CandidateOneMore(st, who, a, trigger, author, now, c);
    }
  }

  lemma CandidateOneMore(st: State, who: map<AgentId, Trigger>, a: AgentId, trigger: Trigger, author: Option<AgentId>, now: nat, c: CandidateId)
    requires Linked(st) && a !in who && Linked(WakeAll(st, who, author, now)) && c in st.candidates
    ensures WakeAll(WakeAll(st, who, author, now), map[a := trigger], author, now).candidates[c] == WakeAll(st, who[a := trigger], author, now).candidates[c]
  {
    hide WakeAll, WokenAgent, WokenCandidate, WakeResumes, Linked;
    var k := st.candidates[c];
    var mid := WakeAll(st, who, author, now);
    WokenKeepsAgent(k);
    WakeAllCandidate(st, who, author, now, c);
    WakeAllCandidate(mid, map[a := trigger], author, now, c);
    WakeAllCandidate(st, who[a := trigger], author, now, c);
  }

  lemma WakeAllCandidate(st: State, who: map<AgentId, Trigger>, author: Option<AgentId>, now: nat, c: CandidateId)
    requires Linked(st) && c in st.candidates
    ensures var st', a := WakeAll(st, who, author, now), st.candidates[c].agent;
      && c in st'.candidates && st'.agents.Keys == st.agents.Keys && (a in st.agents && a !in who ==> st'.agents[a] == st.agents[a])
      && st'.candidates[c] == if Woken(st, who, a) then WokenCandidate(st.candidates[c], WakeResumes(st.agents[a], who[a], author, now)) else st.candidates[c]
  {
    hide WokenAgent, WokenCandidate, WakeResumes;
  }

  lemma WokenKeepsAgent(k: Candidate)
    ensures WokenCandidate(k, true).agent == k.agent && WokenCandidate(k, false).agent == k.agent
  {
  }

  lemma WakeNobody(st: State, author: Option<AgentId>, now: nat)
    requires Linked(st)
    ensures WakeAll(st, map[], author, now) == st
  {
    assert WakeAll(st, map[], author, now).agents == st.agents;
    assert WakeAll(st, map[], author, now).candidates == st.candidates;
  }

  function Undeferred(k: Candidate): Candidate {
    if k.state == DEFERRED then k.(state := if k.text.Some? then NEEDS_REVIEW else DRAFTING) else k
  }

  function UndeferredOf(candidates: map<CandidateId, Candidate>, a: AgentId): map<CandidateId, Candidate> {
    map c | c in candidates :: if candidates[c].agent == a then Undeferred(candidates[c]) else candidates[c]
  }

  function UnreadyOf(candidates: map<CandidateId, Candidate>, a: AgentId): map<CandidateId, Candidate> {
    map c | c in candidates :: if candidates[c].agent == a && candidates[c].state == READY then candidates[c].(state := NEEDS_REVIEW) else candidates[c]
  }

  /** The updates that a wake issues to the rows of one owner, one after the other, are WakeAll. */
  lemma WokenRows(st: State, a: AgentId, trigger: Trigger, author: Option<AgentId>, now: nat)
    requires Linked(st) && a in st.agents && st.agents[a].enabled
    ensures WakeAll(st, map[a := trigger], author, now) ==
      var resumes := WakeResumes(st.agents[a], trigger, author, now);
      st.(agents := st.agents[a := WokenAgent(st.agents[a], st.sessions[st.agents[a].session].settings, trigger, author, now)],
          candidates := UnreadyOf(if resumes then UndeferredOf(st.candidates, a) else st.candidates, a))
  {
    hide WokenAgent, WakeResumes, WakeAll;
    WokenAgentRow(st, a, trigger, author, now);
    WokenCandidateRows(st, a, trigger, author, now);
  }

  lemma WokenAgentRow(st: State, a: AgentId, trigger: Trigger, author: Option<AgentId>, now: nat)
    requires Linked(st) && a in st.agents
    ensures var st' := WakeAll(st, map[a := trigger], author, now);
      st' == st.(agents := st.agents[a := WokenAgent(st.agents[a], st.sessions[st.agents[a].session].settings, trigger, author, now)], candidates := st'.candidates)
  {
    hide WokenAgent, WakeResumes, WokenCandidate;
  }

  lemma WokenCandidateRows(st: State, a: AgentId, trigger: Trigger, author: Option<AgentId>, now: nat)
    requires Linked(st) && a in st.agents && st.agents[a].enabled
    ensures WakeAll(st, map[a := trigger], author, now).candidates ==
      UnreadyOf(if WakeResumes(st.agents[a], trigger, author, now) then UndeferredOf(st.candidates, a) else st.candidates, a)
  {
    hide WakeAll, WakeResumes;
    var st' := WakeAll(st, map[a := trigger], author, now);
    WakeSettles(st, map[a := trigger], author, now);
    forall c | c in st.candidates
      ensures c in st'.candidates && st'.candidates[c] ==
        UnreadyOf(if WakeResumes(st.agents[a], trigger, author, now) then UndeferredOf(st.candidates, a) else st.candidates, a)[c]
    {
      WakeAllCandidate(st, map[a := trigger], author, now, c);
    }
  }

  lemma MovedOneLive(st: State, st': State)
    requires OneLiveCandidate(st) && st'.candidates.Keys == st.candidates.Keys
    requires forall c :: c in st.candidates ==> st'.candidates[c].agent == st.candidates[c].agent && (Live(st'.candidates[c].state) ==> Live(st.candidates[c].state))
    ensures OneLiveCandidate(st')
  {
  }

  lemma SameOneLive(st: State, st': State)
    requires OneLiveCandidate(st) && st'.candidates == st.candidates
    ensures OneLiveCandidate(st')
  {
  }

  /** Recovery of the sessions in `done`. */
  function Refenced(st: State, resume: bool, done: set<SessionId>): State {
    st.(
      runs := map r | r in st.runs :: if st.runs[r].state == ACTIVE && st.runs[r].session in done then st.runs[r].(state := CANCELLED) else st.runs[r],
      sessions := map s | s in st.sessions ::
        if st.sessions[s].lifecycle != RUNNING || s !in done then st.sessions[s]
        else st.sessions[s].(epoch := st.sessions[s].epoch + 1, lifecycle := if resume then RUNNING else PAUSED,
                             userPaused := if resume then st.sessions[s].userPaused else false),
      candidates := map c | c in st.candidates ::
        var k := st.candidates[c];
        if k.state == READY && k.session in done && k.session in st.sessions && st.sessions[k.session].lifecycle == RUNNING then k.(state := NEEDS_REVIEW) else k)
  }

  lemma RefencedRows(st: State, resume: bool, sid: SessionId)
    requires sid in st.sessions
    ensures var s, runs := st.sessions[sid], CancelRuns(st, sid, None).runs;
      Refenced(st, resume, {sid}) ==
        if s.lifecycle != RUNNING then st.(runs := runs)
        else st.(runs := runs, candidates := MoveCandidates(st, sid, {READY}, NEEDS_REVIEW).candidates,
                 sessions := st.sessions[sid := s.(epoch := s.epoch + 1, lifecycle := if resume then RUNNING else PAUSED,
                                                   userPaused := if resume then s.userPaused else false)])
  {
    RefencedRuns(st, resume, sid);
    RefencedCandidates(st, resume, sid);
    var s, s' := st.sessions[sid], Refenced(st, resume, {sid}).sessions;
    assert s' == if s.lifecycle != RUNNING then st.sessions
                 else st.sessions[sid := s.(epoch := s.epoch + 1, lifecycle := if resume then RUNNING else PAUSED, userPaused := if resume then s.userPaused else false)];
  }

  lemma RefencedRuns(st: State, resume: bool, sid: SessionId)
    ensures Refenced(st, resume, {sid}).runs == CancelRuns(st, sid, None).runs
  {
  }

  lemma RefencedCandidates(st: State, resume: bool, sid: SessionId)
    requires sid in st.sessions
    ensures Refenced(st, resume, {sid}).candidates ==
      if st.sessions[sid].lifecycle == RUNNING then MoveCandidates(st, sid, {READY}, NEEDS_REVIEW).candidates else st.candidates
  {
  }

  lemma MoveOnly(st: State, was: State, sid: SessionId, from: set<CandidateState>, to: CandidateState)
    requires st.candidates == was.candidates
    ensures MoveCandidates(st, sid, from, to) == st.(candidates := MoveCandidates(was, sid, from, to).candidates)
  {
  }

  lemma RefencedNobody(st: State, resume: bool)
    ensures Refenced(st, resume, {}) == st
  {
    assert Refenced(st, resume, {}).runs == st.runs;
    assert Refenced(st, resume, {}).sessions == st.sessions;
    assert Refenced(st, resume, {}).candidates == st.candidates;
  }

  lemma RefencedOneMore(st: State, resume: bool, done: set<SessionId>, sid: SessionId)
    requires sid !in done
    ensures Refenced(Refenced(st, resume, done), resume, {sid}) == Refenced(st, resume, done + {sid})
  {
    var left, right := Refenced(Refenced(st, resume, done), resume, {sid}), Refenced(st, resume, done + {sid});
    RefencedCandidatesOneMore(st, resume, done, sid);
    assert left.runs == right.runs;
    assert left.sessions == right.sessions;
  }

  lemma RefencedCandidatesOneMore(st: State, resume: bool, done: set<SessionId>, sid: SessionId)
    requires sid !in done
    ensures Refenced(Refenced(st, resume, done), resume, {sid}).candidates == Refenced(st, resume, done + {sid}).candidates
  {
    var left, right := Refenced(Refenced(st, resume, done), resume, {sid}).candidates, Refenced(st, resume, done + {sid}).candidates;
    forall c | c in left ensures left[c] == right[c] {}
  }

  lemma RefencedEverybody(st: State, resume: bool)
    ensures Refenced(st.(workers := map w | w in st.workers :: st.workers[w] + 1), resume, st.sessions.Keys) == Regenerated(st, resume)
  {
    var left := Refenced(st.(workers := map w | w in st.workers :: st.workers[w] + 1), resume, st.sessions.Keys);
    assert left.runs == Regenerated(st, resume).runs;
    assert left.sessions == Regenerated(st, resume).sessions;
    assert left.candidates == Regenerated(st, resume).candidates;
  }

  lemma RegeneratedStays(st: State, resume: bool)
    requires Linked(st) && OneLiveCandidate(st)
    ensures Linked(Regenerated(st, resume)) && OneLiveCandidate(Regenerated(st, resume))
  {
    MovedOneLive(st, Regenerated(st, resume));
  }

  lemma MembersExist(st: State, sid: SessionId)
    ensures Members(st, sid) <= st.agents.Keys
  {
  }

  lemma SameMembers(st: State, sid: SessionId, id: MessageId, author: Option<AgentId>, text: Text, intent: Intent, candidate: Option<CandidateId>, now: nat)
    requires sid in st.sessions && IntentProblem(st, sid, author, intent).Pass?
    ensures Members(Inserted(st, sid, id, author, text, intent, candidate, now), sid) == Members(st, sid)
  {
    hide IntentProblem;
  }

  lemma NewMessageIs(st: State, sid: SessionId, id: MessageId, author: Option<AgentId>, text: Text, intent: Intent, candidate: Option<CandidateId>, now: nat)
    requires sid in st.sessions && IntentProblem(st, sid, author, intent).Pass?
    ensures intent.replyTo.Some? ==> intent.replyTo.value in st.messages
    ensures NewMessage(st, sid, id, author, text, intent, candidate, now) ==
      Message(sid, st.sessions[sid].revision + 1, author, text, intent.replyTo, intent.addressedTo, candidate, false, now, st.sessions[sid].messageSeq + 1,
              if intent.replyTo.Some? then st.messages[intent.replyTo.value].threadRoot else id)
  {
  }

  lemma StampOnly(st: State, st': State, sid: SessionId, author: Option<AgentId>, now: nat)
    requires st'.agents == st.agents
    ensures StampAuthor(st', sid, author, now) == StampAuthor(st, sid, author, now)
  {
  }

  lemma InsertedLinks(st: State, sid: SessionId, id: MessageId, author: Option<AgentId>, text: Text, intent: Intent, candidate: Option<CandidateId>, now: nat)
    requires Linked(st) && sid in st.sessions && IntentProblem(st, sid, author, intent).Pass?
    ensures Linked(Inserted(st, sid, id, author, text, intent, candidate, now)) && Inserted(st, sid, id, author, text, intent, candidate, now).candidates == st.candidates
  {
    hide IntentProblem;
  }

  lemma WakeDisabled(st: State, a: AgentId, trigger: Trigger, author: Option<AgentId>, now: nat)
    requires Linked(st) && a in st.agents && !st.agents[a].enabled
    ensures WakeAll(st, map[a := trigger], author, now) == st
  {
    assert WakeAll(st, map[a := trigger], author, now).agents == st.agents;
    assert WakeAll(st, map[a := trigger], author, now).candidates == st.candidates;
  }

  lemma InvOneLive(st: State)
    requires Inv(st)
    ensures OneLiveCandidate(st)
  {
  }

  lemma SameAgentsSameMembers(st: State, was: State, sid: SessionId)
    requires st.agents == was.agents
    ensures Members(st, sid) == Members(was, sid)
  {
  }

  // ---------------------------------------------------------------- replacing a worker

  /** The runs of the slot in the sessions of the owners in `done` are cancelled. */
  function Replaced(st: State, slot: Slot, done: set<AgentId>): State {
    st.(runs := map r | r in st.runs ::
          if st.runs[r].state == ACTIVE && st.runs[r].slot == slot && exists a :: a in done && a in st.agents && st.agents[a].session == st.runs[r].session
          then st.runs[r].(state := CANCELLED) else st.runs[r])
  }

  lemma ReplacedNobody(st: State, slot: Slot)
    ensures Replaced(st, slot, {}) == st
  {
    assert Replaced(st, slot, {}).runs == st.runs;
  }

  lemma ReplacedOneMore(st: State, slot: Slot, done: set<AgentId>, a: AgentId, now: nat)
    requires Linked(st) && a in st.agents && a !in done
    ensures Linked(Replaced(st, slot, done)) && Linked(Replaced(st, slot, done + {a}))
    ensures var mid := CancelRuns(WakeAll(Replaced(st, slot, done), Everyone(InRunning(st, done), RECOVERY), None, now), st.agents[a].session, Some(slot));
      && Linked(mid)
      && WakeAll(Replaced(st, slot, done + {a}), Everyone(InRunning(st, done + {a}), RECOVERY), None, now) ==
        if st.sessions[st.agents[a].session].lifecycle == RUNNING then WakeAll(mid, map[a := RECOVERY], None, now) else mid
  {
    hide WakeAll;
    var sid := st.agents[a].session;
    var one, two := Replaced(st, slot, done), Replaced(st, slot, done + {a});
    var who := Everyone(InRunning(st, done), RECOVERY);
    assert CancelRuns(one, sid, Some(slot)).runs == two.runs;
    CancelCommutes(one, who, sid, slot, now);
    if st.sessions[sid].lifecycle == RUNNING {
      WakeOneMore(two, who, a, RECOVERY, None, now);
      assert Everyone(InRunning(st, done + {a}), RECOVERY) == who[a := RECOVERY];
    } else {
      assert InRunning(st, done + {a}) == InRunning(st, done);
    }
  }

  lemma CancelCommutes(st: State, who: map<AgentId, Trigger>, sid: SessionId, slot: Slot, now: nat)
    requires Linked(st)
    ensures Linked(CancelRuns(st, sid, Some(slot))) && Linked(WakeAll(st, who, None, now))
    ensures CancelRuns(WakeAll(st, who, None, now), sid, Some(slot)) == WakeAll(CancelRuns(st, sid, Some(slot)), who, None, now)
  {
    WakeLinks(st, who, None, now);
    hide WokenAgent, WokenCandidate, WakeResumes, OneLiveCandidate;
  }

  lemma WakeLeavesOwners(st: State, a: AgentId, trigger: Trigger, now: nat)
    requires Linked(st)
    ensures var st' := WakeAll(st, map[a := trigger], None, now);
      st'.sessions == st.sessions && st'.runs == st.runs && st'.agents.Keys == st.agents.Keys && forall x :: x in st.agents ==> st'.agents[x].session == st.agents[x].session
  {
    hide WakeAll;
    WakeSettles(st, map[a := trigger], None, now);
    forall x | x in st.agents ensures WakeAll(st, map[a := trigger], None, now).agents[x].session == st.agents[x].session {
      assert SameOwner(st.agents[x], WakeAll(st, map[a := trigger], None, now).agents[x]);
    }
  }

  lemma RegisteredIs(st: State, slot: Slot, now: nat)
    requires Linked(st) && slot in st.workers
    ensures var bumped := st.(workers := st.workers[slot := st.workers[slot] + 1]);
      && Linked(bumped) && Linked(Replaced(bumped, slot, Owners(bumped, slot)))
      && RegisterWorker(st, slot, now) ==
        Ok(WakeAll(Replaced(bumped, slot, Owners(bumped, slot)), Everyone(InRunning(bumped, Owners(bumped, slot)), RECOVERY), None, now))
  {
    hide WakeAll;
    var bumped := st.(workers := st.workers[slot := st.workers[slot] + 1]);
    assert Owners(bumped, slot) == Owners(st, slot);
    assert Replaced(bumped, slot, Owners(bumped, slot)).runs == Reregistered(st, slot).runs;
    assert Replaced(bumped, slot, Owners(bumped, slot)) == Reregistered(st, slot);
    assert InRunning(bumped, Owners(bumped, slot)) == InRunning(st, Owners(st, slot));
  }

  lemma UnknownSlot(st: State, slot: Slot, now: nat)
    requires Linked(st) && slot !in st.workers
    ensures RegisterWorker(st, slot, now) == Reject(WORKER_FORBIDDEN)
  {
  }

  // ---------------------------------------------------------------- expired leases

  lemma LapsedNobody(st: State)
    ensures Lapsed(st, {}) == st && LapsedOwners(st, {}) == {}
  {
    assert Lapsed(st, {}).runs == st.runs;
  }

  /** Live runs have different owners, so each owner is woken once. */
  lemma LapsedOneMore(st: State, all: set<RunId>, done: set<RunId>, r: RunId, now: nat)
    requires Linked(st) && Inv(st) && all == Expired(st, now) && done <= all && r in all && r !in done
    ensures Linked(Lapsed(st, done)) && Linked(Lapsed(st, done + {r})) && st.runs[r].agent in st.agents && st.runs[r].session in st.sessions
    ensures r in Lapsed(st, done).runs && Lapsed(st, done).runs[r] == st.runs[r]
    ensures Lapsed(st, done + {r}).runs == Lapsed(st, done).runs[r := st.runs[r].(state := CANCELLED)]
    ensures var mid := WakeAll(Lapsed(st, done), Everyone(LapsedOwners(st, done), RECOVERY), None, now);
      var cut := mid.(runs := Lapsed(st, done + {r}).runs);
      && Linked(cut)
      && WakeAll(Lapsed(st, done + {r}), Everyone(LapsedOwners(st, done + {r}), RECOVERY), None, now) ==
        if st.sessions[st.runs[r].session].lifecycle == RUNNING then WakeAll(cut, map[st.runs[r].agent := RECOVERY], None, now) else cut
  {
    hide WakeAll, AgentsOk, CandidatesOk, MessagesOk, MessagesDistinct, OneLiveCandidate, CountOk, CoverageOk, ReadyOk, RunsFenced;
    var who := Everyone(LapsedOwners(st, done), RECOVERY);
    var two := Lapsed(st, done + {r});
    assert RunOk(st, st.runs[r]);
    assert two.runs == Lapsed(st, done).runs[r := st.runs[r].(state := CANCELLED)];
    RunsDoNotMatter(Lapsed(st, done), two, who, now);
    WakeLinks(two, who, None, now);
    if st.sessions[st.runs[r].session].lifecycle == RUNNING {
      OthersLapsed(st, done, r, now);
      WakeOneMore(two, who, st.runs[r].agent, RECOVERY, None, now);
      assert LapsedOwners(st, done + {r}) == LapsedOwners(st, done) + {st.runs[r].agent};
      assert Everyone(LapsedOwners(st, done + {r}), RECOVERY) == who[st.runs[r].agent := RECOVERY];
    } else {
      assert LapsedOwners(st, done + {r}) == LapsedOwners(st, done);
    }
  }

  lemma OthersLapsed(st: State, done: set<RunId>, r: RunId, now: nat)
    requires RunsOk(st) && OneRunPerSlot(st) && done <= Expired(st, now) && r in Expired(st, now) && r !in done
    ensures st.runs[r].agent !in LapsedOwners(st, done)
  {
    assert RunOk(st, st.runs[r]);
    forall q | q in done ensures st.runs[q].agent != st.runs[r].agent { assert RunOk(st, st.runs[q]); }
  }

  lemma RunsDoNotMatter(st: State, st': State, who: map<AgentId, Trigger>, now: nat)
    requires Linked(st) && Linked(st') && st' == st.(runs := st'.runs)
    ensures WakeAll(st', who, None, now) == WakeAll(st, who, None, now).(runs := st'.runs)
  {
    hide WokenAgent, WokenCandidate, WakeResumes;
  }

  // ---------------------------------------------------------------- arbitration

  lemma OneLatest(st: State, sid: SessionId, m: MessageId)
    requires MessagesDistinct(st) && IsLatest(st, sid, m)
    ensures Latest(st, sid) == Some(m)
  {
    var x := Latest(st, sid).value;
    assert IsLatest(st, sid, x);
    assert st.messages[x].sequence <= st.messages[m].sequence <= st.messages[x].sequence;
  }

  lemma LatestIsStored(st: State, sid: SessionId)
    ensures Latest(st, sid).Some? ==> Latest(st, sid).value in st.messages
  {
  }

  ghost predicate Lists(st: State, sid: SessionId, targets: set<AgentId>, rows: seq<Eligible>) {
    && (forall c :: Waiting(st, sid, c) ==> Row(st, c, targets) in rows)
    && (forall e :: e in rows ==> Waiting(st, sid, e.id) && e == Row(st, e.id, targets))
  }

  /** Whatever the order of the rows, the elected one is the one candidate that nothing precedes. */
  lemma SelectedIsPick(st: State, sid: SessionId, now: nat, rows: seq<Eligible>)
    requires sid in st.sessions && Lists(st, sid, Round(st, sid, now).graceTargets, rows)
    ensures var e := SelectCandidate(rows, Round(st, sid, now)); Pick(st, sid, now) == if e.Some? then Some(e.value.id) else None
  {
    hide Row, Publishable, Round, SelectCandidate, Before;
    var round := Round(st, sid, now);
    var e := SelectCandidate(rows, round);
    if e.Some? {
      assert IsPick(st, sid, now, e.value.id);
      var p := Pick(st, sid, now).value;
      assert IsPick(st, sid, now, p);
      assert Row(st, p, round.graceTargets) in rows;
      if p != e.value.id { OrderIsTotal(st, p, e.value.id, round); }
    } else {
      forall c ensures !IsPick(st, sid, now, c) {
        if Waiting(st, sid, c) { assert Row(st, c, round.graceTargets) in rows; }
      }
    }
  }

  lemma OrderIsTotal(st: State, c: CandidateId, d: CandidateId, round: Arbitration)
    requires c != d && c in st.candidates && d in st.candidates && st.candidates[c].agent in st.agents && st.candidates[d].agent in st.agents
    ensures Before(Row(st, c, round.graceTargets), Row(st, d, round.graceTargets), round) || Before(Row(st, d, round.graceTargets), Row(st, c, round.graceTargets), round)
  {
  }

  lemma PickIsReady(st: State, sid: SessionId, now: nat)
    requires sid in st.sessions && Pick(st, sid, now).Some?
    ensures Pick(st, sid, now).value in st.candidates && st.candidates[Pick(st, sid, now).value].state == READY
  {
    hide Row, Publishable, Round;
  }

  lemma AppendKeepsKeys(st: State, sid: SessionId, id: MessageId, author: Option<AgentId>, text: Text, intent: Intent, candidate: Option<CandidateId>, now: nat)
    requires Linked(st) && sid in st.sessions && IntentProblem(st, sid, author, intent).Pass?
    ensures var st' := Append(st, sid, id, author, text, intent, candidate, now);
      sid in st'.sessions && st'.candidates.Keys == st.candidates.Keys
  {
    hide IntentProblem, WokenAgent, WokenCandidate, WakeResumes, Members;
  }

  // ---------------------------------------------------------------- results

  lemma AuthorizedExists(st: State, slot: Slot, epoch: nat, id: RunId, token: Token, now: nat)
    requires Authorize(st, slot, epoch, id, token, now).Pass?
    ensures id in st.runs && st.runs[id].session in st.sessions && st.runs[id].agent in st.agents && st.runs[id].state == ACTIVE
  {
  }

  function WithRuns(out: Outcome, runs: map<RunId, Run>): Outcome {
    match out
    case Ok(st) => Ok(st.(runs := runs))
    case Reject(code) => Reject(code)
  }

  /** What a model's answer does to the candidate and its owner has nothing to do with the runs table. */
  lemma OutputIgnoresRuns(st: State, runs: map<RunId, Run>, r: Run, out: Output, v: Verdict, now: nat)
    requires r.session in st.sessions && r.agent in st.agents && (r.candidate.Some? ==> r.candidate.value in st.candidates)
    ensures ApplyOutput(st.(runs := runs), r, out, v, now) == WithRuns(ApplyOutput(st, r, out, v, now), runs)
  {
    hide ApplyOutput;
    match r.kind
    case Decide => DecisionIgnoresRuns(st, runs, r, out, v, now);
    case Review => ReviewIgnoresRuns(st, runs, r, out, v, now);
    case _ => DraftIgnoresRuns(st, runs, r, out, v, now);
  }

  lemma DecisionIgnoresRuns(st: State, runs: map<RunId, Run>, r: Run, out: Output, v: Verdict, now: nat)
    requires r.session in st.sessions && r.agent in st.agents && r.kind == Decide && (r.candidate.Some? ==> r.candidate.value in st.candidates)
    ensures ApplyOutput(st.(runs := runs), r, out, v, now) == WithRuns(ApplyOutput(st, r, out, v, now), runs)
  {
    hide LiveCandidate, IntentProblem, DeferAgent, MoveOwn, UpToDate;
    OwnersIgnoreRuns(st, runs, r, out, v, now);
    if out.Speak? { IntentIgnoresRuns(st, runs, r.session, Some(r.agent), out.intent); }
  }

  lemma DraftIgnoresRuns(st: State, runs: map<RunId, Run>, r: Run, out: Output, v: Verdict, now: nat)
    requires r.session in st.sessions && r.agent in st.agents && r.kind != Decide && r.kind != Review && (r.candidate.Some? ==> r.candidate.value in st.candidates)
    ensures ApplyOutput(st.(runs := runs), r, out, v, now) == WithRuns(ApplyOutput(st, r, out, v, now), runs)
  {
    hide MoveOwn, UpToDate;
    OwnersIgnoreRuns(st, runs, r, out, v, now);
  }

  lemma ReviewIgnoresRuns(st: State, runs: map<RunId, Run>, r: Run, out: Output, v: Verdict, now: nat)
    requires r.session in st.sessions && r.agent in st.agents && r.kind == Review && (r.candidate.Some? ==> r.candidate.value in st.candidates)
    ensures ApplyOutput(st.(runs := runs), r, out, v, now) == WithRuns(ApplyOutput(st, r, out, v, now), runs)
  {
    hide LiveCandidate, IntentProblem, DeferAgent, MoveOwn, UpToDate;
    OwnersIgnoreRuns(st, runs, r, out, v, now);
    if out.Rewrite? { IntentIgnoresRuns(st, runs, r.session, Some(r.agent), out.intent); }
  }

  lemma OwnersIgnoreRuns(st: State, runs: map<RunId, Run>, r: Run, out: Output, v: Verdict, now: nat)
    requires r.session in st.sessions && r.agent in st.agents
    ensures UpToDate(st.(runs := runs), r, v) == UpToDate(st, r, v)
    ensures MoveOwn(st.(runs := runs), r.agent, {READY}, NEEDS_REVIEW) == MoveOwn(st, r.agent, {READY}, NEEDS_REVIEW).(runs := runs)
    ensures out.Wait? ==> DeferAgent(st.(runs := runs), r.agent, out.kind, out.afterMs, now) == WithRuns(DeferAgent(st, r.agent, out.kind, out.afterMs, now), runs)
  {
  }

  lemma IntentIgnoresRuns(st: State, runs: map<RunId, Run>, sid: SessionId, self: Option<AgentId>, intent: Intent)
    ensures IntentProblem(st.(runs := runs), sid, self, intent) == IntentProblem(st, sid, self, intent)
  {
  }

  /** The owner's settled row does not depend on the runs. */
  lemma SettledSame(st: State, st': State, r: SessionTypes.Run, now: nat)
    requires r.agent in st.agents && st'.agents == st.agents && st'.candidates == st.candidates
    ensures Settled(st', r, now) == Settled(st, r, now)
  {
  }

  lemma CandidateIsStored(candidates: map<CandidateId, Candidate>, a: AgentId)
    ensures var c := LiveCandidate(candidates, a); c.Some? ==> c.value in candidates && candidates[c.value].agent == a && Live(candidates[c.value].state)
  {
  }

  /** The update of all live candidates of an owner is the update of its one live candidate. */
  lemma OneLiveMove(st: State, a: AgentId, to: CandidateState)
    requires OneLiveCandidate(st)
    ensures var c := LiveCandidate(st.candidates, a);
      MoveOwn(st, a, LIVE, to) == if c.Some? then st.(candidates := st.candidates[c.value := st.candidates[c.value].(state := to)]) else st
    ensures Live(to) ==> OneLiveCandidate(MoveOwn(st, a, LIVE, to))
  {
    var c := LiveCandidate(st.candidates, a);
    var st' := MoveOwn(st, a, LIVE, to);
    assert st'.candidates == if c.Some? then st.candidates[c.value := st.candidates[c.value].(state := to)] else st.candidates;
    MovedOneLive(st, st');
  }

  lemma AppliedOneLive(st: State, st': State, id: RunId, r: Run, out: Output, v: Verdict, now: nat)
    requires Inv(st) && id in st.runs && st.runs[id] == r && r.state == ACTIVE && Fits(r.kind, out)
    requires r.session in st.sessions && r.agent in st.agents
    requires forall c :: r.candidate == Some(c) ==> c in st.candidates && st.candidates[c].version == r.candidateVersion && Live(st.candidates[c].state)
    requires ApplyOutput(st, r, out, v, now) == Ok(st')
    ensures OneLiveCandidate(st') && r.agent in st'.agents && st'.runs == st.runs
  {
    hide Inv, ApplyOutput, OneLiveCandidate;
    FinishedIsJustFinished(st, id, v.digest);
    var done := Finished(st, id, v.digest);
    OutputIgnoresRuns(st, done.runs, r, out, v, now);
    ApplyOutputKeepsInv(done, id, r, out, v, now);
    ApplyOutputGrows(done, r, out, v, now);
    InvOneLive(st'.(runs := done.runs));
    SameOneLive(st'.(runs := done.runs), st');
    ApplyOutputKeepsRuns(st, r, out, v, now);
  }

  /** The order of the last updates does not matter: marking the run done last, as the service does, is CompleteRun. */
  lemma RefusedIs(st: State, slot: Slot, epoch: nat, id: RunId, token: Token, out: Output, v: Verdict, now: nat, code: Code)
    requires id in st.runs && Owns(st, slot, id, token) && Fits(st.runs[id].kind, out) && Authorize(st, slot, epoch, id, token, now).Pass? && v.callRecorded
    requires st.runs[id].session in st.sessions && st.runs[id].agent in st.agents && st.runs[id].state == ACTIVE
    requires forall c :: st.runs[id].candidate == Some(c) ==>
      (c in st.candidates && st.candidates[c].version == st.runs[id].candidateVersion && st.candidates[c].agent == st.runs[id].agent && Live(st.candidates[c].state))
    requires ApplyOutput(st, st.runs[id], out, v, now) == Reject(code)
    ensures CompleteRun(st, slot, epoch, id, token, out, v, now) == Reject(code)
  {
    hide ApplyOutput, LiveCandidate, Live, Authorize, Fits;
    OutputIgnoresRuns(st, Finished(st, id, v.digest).runs, st.runs[id], out, v, now);
  }

  lemma CompletedIs(st: State, slot: Slot, epoch: nat, id: RunId, token: Token, out: Output, v: Verdict, now: nat, applied: State)
    requires id in st.runs && Owns(st, slot, id, token) && Fits(st.runs[id].kind, out) && Authorize(st, slot, epoch, id, token, now).Pass? && v.callRecorded
    requires st.runs[id].session in st.sessions && st.runs[id].agent in st.agents && st.runs[id].state == ACTIVE
    requires forall c :: st.runs[id].candidate == Some(c) ==>
      (c in st.candidates && st.candidates[c].version == st.runs[id].candidateVersion && st.candidates[c].agent == st.runs[id].agent && Live(st.candidates[c].state))
    requires ApplyOutput(st, st.runs[id], out, v, now) == Ok(applied) && applied.runs == st.runs && st.runs[id].agent in applied.agents
    ensures CompleteRun(st, slot, epoch, id, token, out, v, now) ==
      var r := st.runs[id];
      var reviewed := if v.privateChanged && !Foreground(r.kind) then MoveOwn(applied, r.agent, {READY}, NEEDS_REVIEW) else applied;
      if v.accepted then Ok(reviewed.(runs := Finished(reviewed, id, v.digest).runs, agents := reviewed.agents[r.agent := Settled(reviewed, r, now)]))
      else Reject(STALE_EVIDENCE)
  {
    hide ApplyOutput, LiveCandidate, Live, Authorize, Fits;
    OutputIgnoresRuns(st, Finished(st, id, v.digest).runs, st.runs[id], out, v, now);
  }

  // ---------------------------------------------------------------- claiming

  /** Revisions do not repeat within a session, so the order by revision is one order. */
  lemma FirstIsNext(st: State, sid: SessionId, from: nat, todo: set<MessageId>, m: MessageId)
    requires MessagesDistinct(st) && todo <= After(st, sid, from) && FirstByRevision(st, todo, m)
    ensures ByRevision(st, todo) == [m] + ByRevision(st, todo - {m})
  {
    var first := ByRevision(st, todo)[0];
    assert FirstByRevision(st, todo, first);
    assert st.messages[first].revision == st.messages[m].revision;
  }

  lemma NoneLeft(st: State)
    ensures ByRevision(st, {}) == []
  {
  }

  lemma OneActive(st: State, slot: Slot, r: RunId)
    requires Inv(st) && r in st.runs && st.runs[r].state == ACTIVE && st.runs[r].slot == slot
    ensures ActiveRun(st, slot) == Some(r)
  {
  }

  lemma RunOwner(st: State, r: RunId)
    requires Inv(st) && r in st.runs
    ensures st.runs[r].agent in st.agents && st.runs[r].session in st.sessions
  {
    assert RunOk(st, st.runs[r]);
  }

  lemma NobodyGivesUp(st: State, slot: Slot)
    requires Linked(st)
    ensures GiveUp(st, slot, {}) == st
  {
    assert GiveUp(st, slot, {}).agents == st.agents;
  }

  lemma OneMoreGivesUp(st: State, slot: Slot, done: set<AgentId>, a: AgentId)
    requires Linked(st) && a !in done && a in GiveUp(st, slot, done).agents && GiveUp(st, slot, done).agents[a].slot == slot && GiveUp(st, slot, done).agents[a].enabled
    ensures var mid := GiveUp(st, slot, done);
      && a in mid.agents && mid.agents[a].session in mid.sessions
      && GiveUp(st, slot, done + {a}) ==
        mid.(agents := mid.agents[a := mid.agents[a].(errorCount := mid.sessions[mid.agents[a].session].settings.maxRetries + 1, retryAt := None)])
  {
    var mid := GiveUp(st, slot, done);
    assert GiveUp(st, slot, done + {a}).agents ==
      mid.agents[a := mid.agents[a].(errorCount := mid.sessions[mid.agents[a].session].settings.maxRetries + 1, retryAt := None)];
  }

  /** Whether an owner has work does not depend on the owners that gave up. */
  lemma OthersStillHaveWork(st: State, a: AgentId, slot: Slot, done: set<AgentId>, p: Prospect, now: nat)
    requires Linked(st) && a !in done
    ensures HasWork(GiveUp(st, slot, done), a, slot, p, now) <==> HasWork(st, a, slot, p, now)
  {
  }

  lemma ClaimableIs(st: State, a: AgentId, slot: Slot, p: Prospect, now: nat)
    requires Linked(st) && Claimable(st, a, slot, p, now)
    ensures a in st.agents && st.agents[a].slot == slot && st.agents[a].enabled && st.agents[a].session in st.sessions
  {
  }

  lemma SameRest(st: State, st': State)
    requires OneLiveCandidate(st) && MessagesDistinct(st) && st'.candidates == st.candidates && st'.messages == st.messages
    ensures OneLiveCandidate(st') && MessagesDistinct(st')
  {
  }

  lemma InvDistinct(st: State)
    requires Inv(st)
    ensures MessagesDistinct(st)
  {
  }

  // ---------------------------------------------------------------- configuration, membership, sources

  lemma RenewedIs(st: State, st': State, sid: SessionId)
    requires Linked(st) && sid in st.sessions && sid in st'.sessions && st'.agents == st.agents && st'.sessions.Keys == st.sessions.Keys
    ensures Linked(st')
  {
  }

  lemma RegroupedStays(st: State, sid: SessionId, kept: map<AgentId, Selection>, joined: map<AgentId, Selection>)
    requires Linked(st) && sid in st.sessions
    ensures Linked(Regrouped(st, sid, kept, joined)) && Regrouped(st, sid, kept, joined).candidates == st.candidates
  {
  }

  /** The candidates of one owner after the revision. */
  function OwnRevised(st: State, a: AgentId, was: set<AgentId>, can: set<AgentId>): State {
    st.(candidates := map c | c in st.candidates :: if st.candidates[c].agent == a then SourceMove(st.candidates[c], {a}, was, can) else st.candidates[c])
  }

  lemma FencedNobody(st: State, sid: SessionId, revision: bool, was: set<AgentId>, can: set<AgentId>)
    ensures SourceFenced(st, sid, revision, {}, was, can) == st
  {
    if revision {
      assert SourceFenced(st, sid, revision, {}, was, can).runs == st.runs;
      assert SourceFenced(st, sid, revision, {}, was, can).candidates == st.candidates;
    }
  }

  lemma FencedOneMore(st: State, sid: SessionId, revision: bool, done: set<AgentId>, was: set<AgentId>, can: set<AgentId>, a: AgentId, now: nat)
    requires Linked(st) && a in st.agents && a !in done && Linked(SourceFenced(st, sid, revision, done, was, can))
    ensures Linked(SourceFenced(st, sid, revision, done + {a}, was, can))
    ensures var mid := WakeAll(SourceFenced(st, sid, revision, done, was, can), Everyone(done, OTHER), None, now);
      var cut := if revision then OwnRevised(CancelRuns(mid, sid, Some(st.agents[a].slot)), a, was, can) else mid;
      Linked(cut) && WakeAll(SourceFenced(st, sid, revision, done + {a}, was, can), Everyone(done + {a}, OTHER), None, now) == WakeAll(cut, map[a := OTHER], None, now)
  {
    hide WakeAll, SourceMove;
    var one, two := SourceFenced(st, sid, revision, done, was, can), SourceFenced(st, sid, revision, done + {a}, was, can);
    var who := Everyone(done, OTHER);
    var slot := st.agents[a].slot;
    if revision {
      FencedSteps(st, sid, done, was, can, a);
      CancelCommutes(one, who, sid, slot, now);
      RevisionCommutes(CancelRuns(one, sid, Some(slot)), who, a, was, can, now);
    }
    WakeOneMore(two, who, a, OTHER, None, now);
    assert Everyone(done + {a}, OTHER) == who[a := OTHER];
  }

  lemma FencedSteps(st: State, sid: SessionId, done: set<AgentId>, was: set<AgentId>, can: set<AgentId>, a: AgentId)
    requires a in st.agents && a !in done
    ensures SourceFenced(st, sid, true, done + {a}, was, can) == OwnRevised(CancelRuns(SourceFenced(st, sid, true, done, was, can), sid, Some(st.agents[a].slot)), a, was, can)
  {
    var left, right := SourceFenced(st, sid, true, done + {a}, was, can), OwnRevised(CancelRuns(SourceFenced(st, sid, true, done, was, can), sid, Some(st.agents[a].slot)), a, was, can);
    assert left.runs == right.runs;
    assert left.candidates == right.candidates;
  }

  /** What happens to the candidates of one owner does not depend on the waking of others. */
  lemma RevisionCommutes(st: State, who: map<AgentId, Trigger>, a: AgentId, was: set<AgentId>, can: set<AgentId>, now: nat)
    requires Linked(st) && a !in who
    ensures Linked(OwnRevised(st, a, was, can)) && Linked(WakeAll(st, who, None, now))
    ensures OwnRevised(WakeAll(st, who, None, now), a, was, can) == WakeAll(OwnRevised(st, a, was, can), who, None, now)
  {
    hide SourceMove, WakeAll, OneLiveCandidate, Linked, OwnRevised, Settles;
    LinkedRevised(st, a, was, can);
    WakeLinks(st, who, None, now);
    OnlyCandidatesRevised(st, a, was, can);
    var mid, rev := WakeAll(st, who, None, now), OwnRevised(st, a, was, can);
    OnlyCandidatesRevised(mid, a, was, can);
    CandidatesDoNotMatter(st, rev, who, now);
    CandidateKeys(st, who, now);
    CandidateKeys(rev, who, now);
    OwnKeys(st, a, was, can);
    OwnKeys(mid, a, was, can);
    var left, right := OwnRevised(mid, a, was, can).candidates, WakeAll(rev, who, None, now).candidates;
    forall c | c in st.candidates ensures left[c] == right[c] { RevisionCommutesAt(st, who, a, was, can, now, c); }
    assert left == right;
    SameButCandidates(mid, WakeAll(rev, who, None, now), left);
  }

  lemma SameButCandidates(st: State, st': State, candidates: map<CandidateId, Candidate>)
    requires st'.(candidates := map[]) == st.(candidates := map[]) && st'.candidates == candidates
    ensures st.(candidates := candidates) == st'
  {
  }

  lemma LinkedRevised(st: State, a: AgentId, was: set<AgentId>, can: set<AgentId>)
    requires Linked(st)
    ensures Linked(OwnRevised(st, a, was, can))
  {
    hide SourceMove;
  }

  lemma CandidateKeys(st: State, who: map<AgentId, Trigger>, now: nat)
    requires Linked(st)
    ensures WakeAll(st, who, None, now).candidates.Keys == st.candidates.Keys
  {
    hide WokenAgent, WokenCandidate, WakeResumes;
  }

  lemma OwnKeys(st: State, a: AgentId, was: set<AgentId>, can: set<AgentId>)
    ensures OwnRevised(st, a, was, can).candidates.Keys == st.candidates.Keys
  {
  }

  lemma RevisionCommutesAt(st: State, who: map<AgentId, Trigger>, a: AgentId, was: set<AgentId>, can: set<AgentId>, now: nat, c: CandidateId)
    requires Linked(st) && a !in who && c in st.candidates && Linked(OwnRevised(st, a, was, can)) && Linked(WakeAll(st, who, None, now))
    ensures c in WakeAll(st, who, None, now).candidates && c in WakeAll(OwnRevised(st, a, was, can), who, None, now).candidates
    ensures OwnRevised(WakeAll(st, who, None, now), a, was, can).candidates[c] == WakeAll(OwnRevised(st, a, was, can), who, None, now).candidates[c]
  {
    hide SourceMove, WakeAll, WokenCandidate, WakeResumes, Linked;
    WokenKeepsAgent(st.candidates[c]);
    RevisedKeepsAgent(st.candidates[c], a, was, can);
    WakeAllCandidate(st, who, None, now, c);
    WakeAllCandidate(OwnRevised(st, a, was, can), who, None, now, c);
  }

  lemma CandidatesDoNotMatter(st: State, st': State, who: map<AgentId, Trigger>, now: nat)
    requires Linked(st) && Linked(st') && st' == st.(candidates := st'.candidates)
    ensures WakeAll(st', who, None, now).(candidates := map[]) == WakeAll(st, who, None, now).(candidates := map[])
  {
    hide WokenAgent, WokenCandidate, WakeResumes;
  }

  lemma RevisedKeepsAgent(k: Candidate, a: AgentId, was: set<AgentId>, can: set<AgentId>)
    ensures SourceMove(k, {a}, was, can).agent == k.agent
  {
  }

  lemma WakeKeepsSlots(st: State, a: AgentId, trigger: Trigger, now: nat)
    requires Linked(st)
    ensures var st' := WakeAll(st, map[a := trigger], None, now); st'.agents.Keys == st.agents.Keys && forall x :: x in st.agents ==> st'.agents[x].slot == st.agents[x].slot
  {
    hide WakeAll;
    WakeSettles(st, map[a := trigger], None, now);
    forall x | x in st.agents ensures WakeAll(st, map[a := trigger], None, now).agents[x].slot == st.agents[x].slot {
      assert SameOwner(st.agents[x], WakeAll(st, map[a := trigger], None, now).agents[x]);
    }
  }

  lemma OnlyCandidatesRevised(st: State, a: AgentId, was: set<AgentId>, can: set<AgentId>)
    ensures OwnRevised(st, a, was, can) == st.(candidates := OwnRevised(st, a, was, can).candidates)
  {
  }

  lemma OwnRevisedIs(st: State, a: AgentId, was: set<AgentId>, can: set<AgentId>)
    ensures OwnRevised(st, a, was, can).candidates == map c | c in st.candidates ::
      var k := st.candidates[c];
      if k.agent != a then k
      else if a in was && a !in can then (if Live(k.state) then k.(state := DROPPED) else k)
      else if k.text.Some? && k.state in {READY, NEEDS_REVIEW, DEFERRED} then k.(state := NEEDS_REVIEW) else k
    ensures OneLiveCandidate(st) ==> OneLiveCandidate(OwnRevised(st, a, was, can))
  {
    if OneLiveCandidate(st) { MovedOneLive(st, OwnRevised(st, a, was, can)); }
  }

  /** The rows of the old members, first the retired ones and then the kept ones, and the rows that join. */
  lemma RegroupedRows(st: State, sid: SessionId, kept: map<AgentId, Selection>, joined: map<AgentId, Selection>, retired: map<AgentId, Agent>, redefined: map<AgentId, Agent>)
    requires sid in st.sessions && kept.Keys <= Members(st, sid)
    requires retired == map a | a in st.agents :: if a in Members(st, sid) - kept.Keys then st.agents[a].(enabled := false, retired := true) else st.agents[a]
    requires redefined == map a | a in retired :: if a in kept then Reselected(retired[a], kept[a]) else retired[a]
    ensures Regrouped(st, sid, kept, joined).agents == redefined + NewRows(sid, joined)
  {
    hide Members, Reselected;
    assert redefined == map a | a in st.agents ::
      if a in kept then Reselected(st.agents[a], kept[a]) else if a in Members(st, sid) then st.agents[a].(enabled := false, retired := true) else st.agents[a];
  }

  lemma CreatedIs(st: State, sid: SessionId, settings: Settings, members: map<AgentId, Slot>)
    requires sid !in st.sessions && members.Keys !! st.agents.Keys && forall a :: a in members ==> members[a] in st.workers
    ensures CreateSession(st, sid, settings, members) ==
      Ok(st.(sessions := st.sessions[sid := Session(DRAFT, false, false, 0, 0, 0, 0, 0, 0, settings)],
             agents := st.agents + NewRows(sid, Enlisted(members))))
  {
    hide NewAgent;
    EnlistedRows(sid, members);
  }

  lemma CreatedNot(st: State, sid: SessionId, settings: Settings, members: map<AgentId, Slot>)
    ensures sid in st.sessions || !(members.Keys !! st.agents.Keys) ==> CreateSession(st, sid, settings, members) == Reject(PRIMARY_KEY)
    ensures sid !in st.sessions && members.Keys !! st.agents.Keys && (exists a :: a in members && members[a] !in st.workers) ==>
      CreateSession(st, sid, settings, members) == Reject(UNKNOWN_WORKER_SLOT)
  {
    hide NewAgent;
  }

  /** Every member of a new session is enabled. */
  function Enlisted(members: map<AgentId, Slot>): map<AgentId, Selection> { map a | a in members :: Selection(members[a], true, true, true) }

  function NewRows(sid: SessionId, joined: map<AgentId, Selection>): map<AgentId, Agent> { map a | a in joined :: NewAgent(sid, joined[a].slot, joined[a].enabled) }

  lemma EnlistedRows(sid: SessionId, members: map<AgentId, Slot>)
    ensures Enlisted(members).Keys == members.Keys
    ensures NewRows(sid, Enlisted(members)) == map a | a in members :: NewAgent(sid, members[a], true)
  {
    hide NewAgent;
  }

  predicate Unchanged(st: State, kept: map<AgentId, Selection>, removed: set<AgentId>, joined: map<AgentId, Selection>)
    requires kept.Keys <= st.agents.Keys
  {
    removed == {} && joined == map[] && forall a :: a in kept ==> !kept[a].redefined && kept[a].enabled == st.agents[a].enabled
  }

  /** ApplyMembership after its checks. */
  lemma MembershipIs(st: State, sid: SessionId, expectedEpoch: nat, kept: map<AgentId, Selection>, joined: map<AgentId, Selection>)
    requires sid in st.sessions && Still(st.sessions[sid]) && st.sessions[sid].epoch == expectedEpoch
    requires kept.Keys <= Members(st, sid) && Members(st, sid) <= st.agents.Keys && (forall a :: a in kept ==> st.agents[a].slot == kept[a].slot)
    requires joined.Keys !! st.agents.Keys && forall a :: a in joined ==> joined[a].slot in st.workers
    ensures ApplyMembership(st, sid, expectedEpoch, kept, joined) ==
      if Unchanged(st, kept, Members(st, sid) - kept.Keys, joined) then Ok(st)
      else Ok(MoveCandidates(CancelRuns(Regrouped(st, sid, kept, joined), sid, None), sid, LIVE, DROPPED))
  {
    hide Members, Regrouped, MoveCandidates, CancelRuns;
  }
}
