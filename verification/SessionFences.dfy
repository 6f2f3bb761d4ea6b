/** The invariant is kept by every command that fences a generation: lifecycle, budget, settings, membership, workers, recovery. */
module SessionFences {
  import opened Wrappers
  import opened SessionTypes
  import opened SessionSteps
  import opened SessionInvariant

  /** st' differs from st only in session sid, where no run is live and nothing is ready. */
  ghost predicate Fences(st: State, st': State, sid: SessionId) {
    && Settles(st, st') && AgentsOk(st') && st'.workers == st.workers
    && (forall s :: s in st.sessions && s != sid ==> st'.sessions[s] == st.sessions[s])
    && (forall a :: a in st.agents && st.agents[a].session != sid ==> st'.agents[a] == st.agents[a])
    && (forall r :: r in st'.runs && st'.runs[r].state == ACTIVE ==> st'.runs[r] == st.runs[r] && st.runs[r].session != sid)
    && (forall c :: c in st'.candidates && st'.candidates[c].state == READY ==> st'.candidates[c] == st.candidates[c] && st.candidates[c].session != sid)
  }

  lemma FencesKeepsInv(st: State, st': State, sid: SessionId)
    requires Inv(st) && Fences(st, st', sid)
    ensures Inv(st')
  {
    SettlesKeepsCore(st, st');
    forall c | c in st'.candidates && st'.candidates[c].state == READY ensures MayPublish(st', st'.candidates[c]) {
      assert MayPublish(st, st.candidates[c]) && CandidateOk(st, st.candidates[c]);
    }
    forall r | r in st'.runs && st'.runs[r].state == ACTIVE ensures Current(st', st'.runs[r]) {
      assert Current(st, st.runs[r]) && RunOk(st, st.runs[r]);
    }
  }

  /** The common shape: a new row for the session, all its runs cancelled, its ready candidates moved out of the way. */
  function Fenced(st: State, sid: SessionId, s: Session, from: set<CandidateState>, to: CandidateState): State {
    MoveCandidates(CancelRuns(st.(sessions := st.sessions[sid := s]), sid, None), sid, from, to)
  }

  lemma FencedKeepsInv(st: State, sid: SessionId, s: Session, from: set<CandidateState>, to: CandidateState)
    requires Inv(st) && sid in st.sessions && SameLedger(st.sessions[sid], s)
    requires READY in from && from <= LIVE && to != READY && to != COMMITTED
    ensures Inv(Fenced(st, sid, s, from, to))
  {
    hide CandidatesOk, RunsOk, MessagesOk, MessagesDistinct, OneLiveCandidate, OneRunPerSlot, CountOk, CoverageOk, ReadyOk, RunsFenced, CancelRuns, MoveCandidates;
    ClearedKeepsInv(st, st.(sessions := st.sessions[sid := s]), sid, from, to);
  }

  /** Only the row of session sid and the rows of its members differ. */
  ghost predicate Rekeys(st: State, mid: State, sid: SessionId) {
    && AgentsOk(mid) && st.agents.Keys <= mid.agents.Keys && mid.sessions.Keys == st.sessions.Keys
    && mid.candidates == st.candidates && mid.runs == st.runs && mid.messages == st.messages && mid.workers == st.workers
    && (forall s :: s in st.sessions ==> SameLedger(st.sessions[s], mid.sessions[s]) && (s != sid ==> mid.sessions[s] == st.sessions[s]))
    && (forall a :: a in st.agents ==> SameOwner(st.agents[a], mid.agents[a]) && (st.agents[a].session != sid ==> mid.agents[a] == st.agents[a]))
  }

  lemma ClearedKeepsInv(st: State, mid: State, sid: SessionId, from: set<CandidateState>, to: CandidateState)
    requires Inv(st) && Rekeys(st, mid, sid)
    requires READY in from && from <= LIVE && to != READY && to != COMMITTED
    ensures Inv(MoveCandidates(CancelRuns(mid, sid, None), sid, from, to))
  {
    hide AgentsOk, CandidatesOk, RunsOk, MessagesOk, MessagesDistinct, OneLiveCandidate, OneRunPerSlot, CountOk, CoverageOk, ReadyOk, RunsFenced;
    var st' := MoveCandidates(CancelRuns(mid, sid, None), sid, from, to);
    forall c | c in st.candidates
      ensures OnlyMoved(st.candidates[c], st'.candidates[c]) && (st'.candidates[c].state == READY ==> st'.candidates[c] == st.candidates[c] && st.candidates[c].session != sid)
    {
    }
    forall r | r in st.runs
      ensures OnlyStopped(st.runs[r], st'.runs[r]) && (st'.runs[r].state == ACTIVE ==> st'.runs[r] == st.runs[r] && st.runs[r].session != sid)
    {
    }
    AgentsStayOk(mid, st');
    FencesKeepsInv(st, st', sid);
  }

  lemma AgentsStayOk(st: State, st': State)
    requires AgentsOk(st) && st'.agents == st.agents && st'.sessions == st.sessions && st'.workers == st.workers
    ensures AgentsOk(st')
  {
  }

  /** A session that is not running has neither live runs nor ready candidates. */
  lemma StillIsQuiet(st: State, sid: SessionId)
    requires Inv(st) && sid in st.sessions && st.sessions[sid].lifecycle != RUNNING
    ensures forall r :: r in st.runs && st.runs[r].session == sid ==> st.runs[r].state != ACTIVE
    ensures forall c :: c in st.candidates && st.candidates[c].session == sid ==> st.candidates[c].state != READY
  {
    forall r | r in st.runs && st.runs[r].state == ACTIVE ensures st.runs[r].session != sid { assert Current(st, st.runs[r]); }
    forall c | c in st.candidates && st.candidates[c].state == READY ensures st.candidates[c].session != sid { assert MayPublish(st, st.candidates[c]); }
  }

  lemma PauseForLimitKeepsInv(st: State, sid: SessionId)
    requires Inv(st) && sid in st.sessions
    ensures Inv(PauseForLimit(st, sid))
  {
    var s := st.sessions[sid];
    var s' := s.(lifecycle := PAUSED, budgetPaused := true, userPaused := false, epoch := s.epoch + 1);
    FencedKeepsInv(st, sid, s', {READY}, NEEDS_REVIEW);
    assert PauseForLimit(st, sid) == Fenced(st, sid, s', {READY}, NEEDS_REVIEW);
  }

  lemma LifecycleKeepsInv(st: State, sid: SessionId, action: Action, budgetOpen: bool, maxRunning: nat, now: nat)
    requires Inv(st)
    ensures var out := Lifecycled(st, sid, action, budgetOpen, maxRunning, now); out.Ok? ==> Inv(out.state)
  {
    hide Core, ReadyOk, RunsFenced;
    if sid in st.sessions {
      var s := st.sessions[sid];
      var running := s.(lifecycle := RUNNING, budgetPaused := false, userPaused := false, epoch := s.epoch + 1);
      FencedKeepsInv(st, sid, running, {READY}, NEEDS_REVIEW);
      var fenced := Fenced(st, sid, running, {READY}, NEEDS_REVIEW);
      WakeKeepsInv(fenced, Everyone(Members(fenced, sid), RECOVERY), None, now);
      FencedKeepsInv(st, sid, s.(lifecycle := PAUSED, userPaused := true, epoch := s.epoch + 1), {READY}, NEEDS_REVIEW);
      FencedKeepsInv(st, sid, s.(lifecycle := ENDED, userPaused := false, epoch := s.epoch + 1), LIVE, DROPPED);
    }
  }

  lemma RenewAutomaticKeepsInv(st: State, sid: SessionId, windowOver: bool, maxRunning: nat, now: nat)
    requires Inv(st)
    ensures var out := RenewAutomatic(st, sid, windowOver, maxRunning, now); out.Ok? ==> Inv(out.state)
  {
    hide Core, ReadyOk, RunsFenced;
    if sid in st.sessions {
      var s := st.sessions[sid];
      var running := s.(lifecycle := RUNNING, budgetPaused := false, userPaused := false, windowPostStart := s.botCount, epoch := s.epoch + 1);
      FencedKeepsInv(st, sid, running, {READY}, NEEDS_REVIEW);
      var fenced := Fenced(st, sid, running, {READY}, NEEDS_REVIEW);
      WakeKeepsInv(fenced, Everyone(Members(fenced, sid), OTHER), None, now);
    }
  }

  lemma StillCommandKeepsInv(st: State, sid: SessionId, s: Session)
    requires Inv(st) && sid in st.sessions && Still(st.sessions[sid]) && SameLedger(st.sessions[sid], s)
    ensures Inv(CancelRuns(st.(sessions := st.sessions[sid := s]), sid, None))
  {
    hide CandidatesOk, RunsOk, MessagesOk, MessagesDistinct, OneLiveCandidate, OneRunPerSlot, CountOk, CoverageOk;
    StillIsQuiet(st, sid);
    FencedKeepsInv(st, sid, s, {READY}, NEEDS_REVIEW);
    assert CancelRuns(st.(sessions := st.sessions[sid := s]), sid, None).candidates == Fenced(st, sid, s, {READY}, NEEDS_REVIEW).candidates;
  }

  lemma SetAgentEnabledKeepsInv(st: State, sid: SessionId, a: AgentId, enabled: bool)
    requires Inv(st)
    ensures var out := SetAgentEnabled(st, sid, a, enabled); out.Ok? ==> Inv(out.state)
  {
    hide AgentsOk, CandidatesOk, RunsOk, MessagesOk, MessagesDistinct, OneLiveCandidate, OneRunPerSlot, CountOk, CoverageOk, ReadyOk, RunsFenced;
    var out := SetAgentEnabled(st, sid, a, enabled);
    if out.Ok? {
      StillIsQuiet(st, sid);
      InvLinked(st);
      EnabledRows(st, sid, a, enabled);
      FencesKeepsInv(st, out.state, sid);
    }
  }

  lemma EnabledRows(st: State, sid: SessionId, a: AgentId, enabled: bool)
    requires AgentsOk(st) && SetAgentEnabled(st, sid, a, enabled).Ok?
    requires forall c :: c in st.candidates && st.candidates[c].session == sid ==> st.candidates[c].state != READY
    ensures Fences(st, SetAgentEnabled(st, sid, a, enabled).state, sid)
  {
    EnabledCandidates(st, sid, a, enabled);
    EnabledRuns(st, sid, a, enabled);
    hide OnlyMoved, OnlyStopped;
  }

  lemma EnabledCandidates(st: State, sid: SessionId, a: AgentId, enabled: bool)
    requires SetAgentEnabled(st, sid, a, enabled).Ok?
    ensures var st' := SetAgentEnabled(st, sid, a, enabled).state;
      st'.candidates.Keys == st.candidates.Keys && forall c :: c in st.candidates ==> OnlyMoved(st.candidates[c], st'.candidates[c]) && (st'.candidates[c].state == READY ==> st'.candidates[c] == st.candidates[c])
  {
  }

  lemma EnabledRuns(st: State, sid: SessionId, a: AgentId, enabled: bool)
    requires SetAgentEnabled(st, sid, a, enabled).Ok?
    ensures var st' := SetAgentEnabled(st, sid, a, enabled).state;
      st'.runs.Keys == st.runs.Keys && forall r :: r in st.runs ==> OnlyStopped(st.runs[r], st'.runs[r]) && (st'.runs[r].state == ACTIVE ==> st'.runs[r] == st.runs[r] && st.runs[r].session != sid)
  {
  }

  lemma RecoverKeepsInv(st: State, resume: bool, now: nat)
    requires Inv(st)
    ensures Linked(st) && Inv(Recover(st, resume, now))
  {
    hide AgentsOk, CandidatesOk, RunsOk, MessagesOk, MessagesDistinct, OneLiveCandidate, OneRunPerSlot, CountOk, CoverageOk, ReadyOk, RunsFenced, Regenerated;
    InvLinked(st);
    var fenced := Regenerated(st, resume);
    RegeneratedSettles(st, resume);
    SettlesKeepsCore(st, fenced);
    RegeneratedIsQuiet(st, resume);
    assert Inv(fenced);
    if resume { WakeKeepsInv(fenced, Everyone(RunningAgents(fenced), RECOVERY), None, now); }
  }

  lemma RegeneratedSettles(st: State, resume: bool)
    requires AgentsOk(st)
    ensures Settles(st, Regenerated(st, resume)) && AgentsOk(Regenerated(st, resume))
  {
    var fenced := Regenerated(st, resume);
    forall r | r in st.runs ensures OnlyStopped(st.runs[r], fenced.runs[r]) {}
    forall c | c in st.candidates ensures OnlyMoved(st.candidates[c], fenced.candidates[c]) {}
  }

  /** Recovery leaves no live run and nothing ready. */
  lemma RegeneratedIsQuiet(st: State, resume: bool)
    requires ReadyOk(st) && RunsFenced(st)
    ensures ReadyOk(Regenerated(st, resume)) && RunsFenced(Regenerated(st, resume))
  {
    var fenced := Regenerated(st, resume);
    forall c | c in st.candidates ensures fenced.candidates[c].state != READY {
      if st.candidates[c].state == READY { assert MayPublish(st, st.candidates[c]); }
    }
    forall r | r in st.runs ensures fenced.runs[r].state != ACTIVE {
      if st.runs[r].state == ACTIVE { assert Current(st, st.runs[r]); }
    }
  }

  lemma OwnSlot(st: State, r: RunId)
    requires RunsOk(st) && r in st.runs
    ensures st.runs[r].agent in st.agents && st.agents[st.runs[r].agent].slot == st.runs[r].slot && st.agents[st.runs[r].agent].session == st.runs[r].session
  {
    assert RunOk(st, st.runs[r]);
  }

  lemma RegisterWorkerKeepsInv(st: State, slot: Slot, now: nat)
    requires Inv(st)
    ensures var out := RegisterWorker(st, slot, now); out.Ok? ==> Inv(out.state)
  {
    hide CandidatesOk, RunsOk, MessagesOk, MessagesDistinct, OneLiveCandidate, OneRunPerSlot, CountOk, CoverageOk;
    if slot in st.workers {
      var fenced := Reregistered(st, slot);
      forall r | r in st.runs ensures OnlyStopped(st.runs[r], fenced.runs[r]) {}
      SettlesKeepsCore(st, fenced);
      forall c | c in fenced.candidates && fenced.candidates[c].state == READY ensures MayPublish(fenced, fenced.candidates[c]) { assert MayPublish(st, st.candidates[c]); }
      forall r | r in fenced.runs && fenced.runs[r].state == ACTIVE ensures Current(fenced, fenced.runs[r]) {
        assert Current(st, st.runs[r]);
        OwnSlot(st, r);
        assert st.runs[r].slot == slot ==> st.runs[r].agent in Owners(st, slot);
      }
      assert Inv(fenced);
      WakeKeepsInv(fenced, Everyone(InRunning(st, Owners(st, slot)), RECOVERY), None, now);
    }
  }

  lemma CancelKeepsInv(st: State, sid: SessionId, slot: Option<Slot>)
    requires Inv(st)
    ensures Inv(CancelRuns(st, sid, slot)) && CancelRuns(st, sid, slot).agents == st.agents
  {
    hide CandidatesOk, RunsOk, MessagesOk, MessagesDistinct, OneLiveCandidate, OneRunPerSlot, CountOk, CoverageOk;
    var st' := CancelRuns(st, sid, slot);
    assert Settles(st, st') by {
      forall r | r in st.runs ensures OnlyStopped(st.runs[r], st'.runs[r]) {}
    }
    SettlesKeepsCore(st, st');
    forall c | c in st'.candidates && st'.candidates[c].state == READY ensures MayPublish(st', st'.candidates[c]) { assert MayPublish(st, st.candidates[c]); }
    forall r | r in st'.runs && st'.runs[r].state == ACTIVE ensures Current(st', st'.runs[r]) { assert Current(st, st.runs[r]); }
  }

  /** Counters and timers of agents may change freely as long as membership and the wake sequence do not go back. */
  lemma AgentFieldsKeepInv(st: State, agents: map<AgentId, Agent>)
    requires Inv(st) && agents.Keys == st.agents.Keys
    requires forall a :: a in agents ==> SameOwner(st.agents[a], agents[a]) && agents[a].enabled == st.agents[a].enabled && agents[a].retired == st.agents[a].retired
    ensures Inv(st.(agents := agents))
  {
    hide AgentsOk, CandidatesOk, RunsOk, MessagesOk, MessagesDistinct, OneLiveCandidate, OneRunPerSlot, CountOk, CoverageOk;
    var st' := st.(agents := agents);
    OwnersStayOk(st, agents);
    assert Settles(st, st');
    SettlesKeepsCore(st, st');
    forall c | c in st'.candidates && st'.candidates[c].state == READY ensures MayPublish(st', st'.candidates[c]) { assert MayPublish(st, st.candidates[c]); }
    forall r | r in st'.runs && st'.runs[r].state == ACTIVE ensures Current(st', st'.runs[r]) { assert Current(st, st.runs[r]); }
  }

  lemma OwnersStayOk(st: State, agents: map<AgentId, Agent>)
    requires AgentsOk(st) && agents.Keys == st.agents.Keys
    requires forall a :: a in agents ==> SameOwner(st.agents[a], agents[a]) && agents[a].enabled == st.agents[a].enabled && agents[a].retired == st.agents[a].retired
    ensures AgentsOk(st.(agents := agents))
  {
  }

  lemma RetryAgentKeepsInv(st: State, sid: SessionId, a: AgentId, now: nat)
    requires Inv(st)
    ensures var out := RetryAgent(st, sid, a, now); out.Ok? ==> Inv(out.state)
  {
    hide Inv, CancelRuns, WakeAll;
    InvLinked(st);
    var out := RetryAgent(st, sid, a, now);
    if out.Ok? {
      CancelKeepsInv(st, sid, Some(st.agents[a].slot));
      var cancelled := CancelRuns(st, sid, Some(st.agents[a].slot));
      var agents := st.agents[a := st.agents[a].(errorCount := 0, retryAt := None)];
      AgentFieldsKeepInv(cancelled, agents);
      InvLinked(cancelled.(agents := agents));
      WakeKeepsInv(cancelled.(agents := agents), map[a := RECOVERY], None, now);
    }
  }

  /** Candidates that only move away from READY, and runs that only stop, keep everything. */
  lemma DemotionKeepsInv(st: State, candidates: map<CandidateId, Candidate>, runs: map<RunId, Run>)
    requires Inv(st) && candidates.Keys == st.candidates.Keys && runs.Keys == st.runs.Keys
    requires forall c :: c in candidates ==> OnlyMoved(st.candidates[c], candidates[c])
    requires forall r :: r in runs ==> OnlyStopped(st.runs[r], runs[r])
    ensures Inv(st.(candidates := candidates, runs := runs))
  {
    hide AgentsOk, CandidatesOk, RunsOk, MessagesOk, MessagesDistinct, OneLiveCandidate, OneRunPerSlot, CountOk, CoverageOk;
    var st' := st.(candidates := candidates, runs := runs);
    AgentsStayOk(st, st');
    assert Settles(st, st');
    SettlesKeepsCore(st, st');
    forall c | c in candidates && candidates[c].state == READY ensures MayPublish(st', candidates[c]) {
      assert OnlyMoved(st.candidates[c], candidates[c]) && MayPublish(st, st.candidates[c]);
    }
    forall r | r in runs && runs[r].state == ACTIVE ensures Current(st', runs[r]) { assert OnlyStopped(st.runs[r], runs[r]) && Current(st, st.runs[r]); }
  }

  lemma SourceOnlyMoves(k: Candidate, told: set<AgentId>, was: set<AgentId>, can: set<AgentId>)
    ensures OnlyMoved(k, SourceMove(k, told, was, can))
  {
  }

  lemma ApplySourceKeepsInv(st: State, sid: SessionId, revision: bool, was: set<AgentId>, can: set<AgentId>, now: nat)
    requires Inv(st)
    ensures var out := ApplySource(st, sid, revision, was, can, now); out.Ok? ==> Inv(out.state)
  {
    hide Inv, WakeAll, SourceMove;
    InvLinked(st);
    var out := ApplySource(st, sid, revision, was, can, now);
    if out.Ok? {
      var told := Told(st, sid, revision, was, can);
      var fenced := SourceFenced(st, sid, revision, told, was, can);
      forall c | c in st.candidates ensures OnlyMoved(st.candidates[c], fenced.candidates[c]) { SourceOnlyMoves(st.candidates[c], told, was, can); }
      if revision { DemotionKeepsInv(st, fenced.candidates, fenced.runs); }
      WakeKeepsInv(fenced, Everyone(told, OTHER), None, now);
    }
  }

  lemma ExpireLeasesKeepsInv(st: State, now: nat)
    requires Inv(st)
    ensures Inv(ExpireLeases(st, now))
  {
    hide Inv;
    InvLinked(st);
    DemotionKeepsInv(st, st.candidates, Lapsed(st, Expired(st, now)).runs);
    WakeKeepsInv(Lapsed(st, Expired(st, now)), Everyone(LapsedOwners(st, Expired(st, now)), RECOVERY), None, now);
  }

  lemma StaleReadyKeepsInv(st: State, a: AgentId, now: nat)
    requires Inv(st) && a in st.agents
    ensures Inv(StaleReady(st, a, now)) && StaleReady(st, a, now).agents == st.agents
  {
    hide CandidatesOk, RunsOk, MessagesOk, MessagesDistinct, OneLiveCandidate, OneRunPerSlot, CountOk, CoverageOk, ReadyOk, RunsFenced;
    var st' := StaleReady(st, a, now);
    forall c | c in st.candidates ensures OnlyMoved(st.candidates[c], st'.candidates[c]) {}
    DemotionKeepsInv(st, st'.candidates, st.runs);
  }

  lemma TickAgentKeepsInv(st: State, a: AgentId, agenda: bool, idle: bool, now: nat)
    requires Inv(st)
    ensures var out := TickAgent(st, a, agenda, idle, now); out.Ok? ==> Inv(out.state)
  {
    hide Inv, WakeAll, StaleReady;
    InvLinked(st);
    if a in st.agents {
      WakeKeepsInv(st, map[a := AGENDA], None, now);
      var one := if agenda then Wake(st, a, AGENDA, now) else st;
      WakeKeepsInv(one, map[a := OTHER], None, now);
      var two := if one.agents[a].deferral.Some? && one.agents[a].deferral.value.until <= now then Wake(one, a, OTHER, now) else one;
      StaleReadyKeepsInv(two, a, now);
      InvLinked(StaleReady(two, a, now));
      WakeKeepsInv(StaleReady(two, a, now), map[a := OTHER], None, now);
    }
  }

  lemma HeartbeatKeepsInv(st: State, slot: Slot, epoch: nat, id: RunId, token: Token, now: nat)
    requires Inv(st)
    ensures var out := Heartbeat(st, slot, epoch, id, token, now); out.Ok? ==> Inv(out.state)
  {
    var out := Heartbeat(st, slot, epoch, id, token, now);
    if out.Ok? { DemotionKeepsInv(st, st.candidates, out.state.runs); }
  }

  lemma FailRunKeepsInv(st: State, slot: Slot, epoch: nat, id: RunId, token: Token, reusable: bool, providerRetryAt: nat, now: nat)
    requires Inv(st)
    ensures var out := FailRun(st, slot, epoch, id, token, reusable, providerRetryAt, now); out.Ok? ==> Inv(out.state)
  {
    hide CandidatesOk, RunsOk, MessagesOk, MessagesDistinct, OneLiveCandidate, OneRunPerSlot, CountOk, CoverageOk, ReadyOk, RunsFenced;
    var out := FailRun(st, slot, epoch, id, token, reusable, providerRetryAt, now);
    if out.Ok? && st.runs[id].state != FAILED {
      var r := st.runs[id];
      CancelKeepsInv(st, r.session, Some(slot));
      WakeKeepsInv(CancelRuns(st, r.session, Some(slot)), map[r.agent := OTHER], None, now);
      DemotionKeepsInv(st, st.candidates, st.runs[id := r.(state := FAILED)]);
      if reusable { AgentFieldsKeepInv(st.(runs := st.runs[id := r.(state := FAILED)]), out.state.agents); }
    }
  }

  lemma RegroupedMembers(st: State, sid: SessionId, kept: map<AgentId, Selection>, joined: map<AgentId, Selection>)
    requires AgentsOk(st) && sid in st.sessions && kept.Keys <= Members(st, sid) && joined.Keys !! st.agents.Keys
    requires forall a :: a in joined ==> joined[a].slot in st.workers
    ensures Rekeys(st, Regrouped(st, sid, kept, joined), sid)
  {
    hide Members;
    MembersOfSession(st, sid);
    var st' := Regrouped(st, sid, kept, joined);
    forall a | a in st.agents ensures SameOwner(st.agents[a], st'.agents[a]) && (st.agents[a].session != sid ==> st'.agents[a] == st.agents[a]) {}
    forall a | a in st'.agents
      ensures st'.agents[a].session in st'.sessions && st'.agents[a].slot in st'.workers && (st'.agents[a].retired ==> !st'.agents[a].enabled)
    {
      if a in kept { assert !st.agents[a].retired; }
    }
  }

  lemma MembersOfSession(st: State, sid: SessionId)
    ensures forall a :: a in Members(st, sid) ==> a in st.agents && st.agents[a].session == sid && !st.agents[a].retired
  {
  }

  lemma ApplyMembershipKeepsInv(st: State, sid: SessionId, expectedEpoch: nat, kept: map<AgentId, Selection>, joined: map<AgentId, Selection>)
    requires Inv(st)
    ensures var out := ApplyMembership(st, sid, expectedEpoch, kept, joined); out.Ok? ==> Inv(out.state)
  {
    hide CandidatesOk, RunsOk, MessagesOk, MessagesDistinct, OneLiveCandidate, OneRunPerSlot, CountOk, CoverageOk, ReadyOk, RunsFenced, Regrouped, CancelRuns, MoveCandidates;
    var out := ApplyMembership(st, sid, expectedEpoch, kept, joined);
    if out.Ok? && out.state != st {
      RegroupedMembers(st, sid, kept, joined);
      ClearedKeepsInv(st, Regrouped(st, sid, kept, joined), sid, LIVE, DROPPED);
    }
  }

  lemma CreateSessionKeepsInv(st: State, sid: SessionId, settings: Settings, members: map<AgentId, Slot>)
    requires Inv(st)
    ensures var out := CreateSession(st, sid, settings, members); out.Ok? ==> Inv(out.state)
  {
    hide CandidatesOk, RunsOk, MessagesOk, MessagesDistinct, OneLiveCandidate, OneRunPerSlot, CountOk, CoverageOk, ReadyOk, RunsFenced;
    var out := CreateSession(st, sid, settings, members);
    if out.Ok? {
      assert Widens(st, out.state, sid);
      GrowthKeepsRows(st, out.state, sid);
      GrowthKeepsCounts(st, out.state, sid);
    }
  }

  /** A new session and its new agents appear; every older row stays as it is. */
  ghost predicate Widens(st: State, st': State, sid: SessionId) {
    && sid !in st.sessions && st'.sessions.Keys == st.sessions.Keys + {sid} && st'.sessions[sid].botCount == 0
    && (forall s :: s in st.sessions ==> st'.sessions[s] == st.sessions[s])
    && st.agents.Keys <= st'.agents.Keys && (forall a :: a in st.agents ==> st'.agents[a] == st.agents[a])
    && st'.candidates == st.candidates && st'.runs == st.runs && st'.messages == st.messages && st'.workers == st.workers && AgentsOk(st')
  }

  lemma GrowthKeepsRows(st: State, st': State, sid: SessionId)
    requires Inv(st) && Widens(st, st', sid)
    ensures AgentsOk(st') && CandidatesOk(st') && RunsOk(st') && MessagesOk(st') && ReadyOk(st') && RunsFenced(st')
  {
    hide MessagesDistinct, OneLiveCandidate, OneRunPerSlot, CountOk, CoverageOk;
    forall c | c in st'.candidates ensures CandidateOk(st', st'.candidates[c]) { assert CandidateOk(st, st.candidates[c]); }
    forall r | r in st'.runs ensures RunOk(st', st'.runs[r]) { assert RunOk(st, st.runs[r]); }
    forall m | m in st'.messages ensures MessageOk(st', m, st'.messages[m]) { assert MessageOk(st, m, st.messages[m]); }
    forall c | c in st'.candidates && st'.candidates[c].state == READY ensures MayPublish(st', st'.candidates[c]) { assert MayPublish(st, st.candidates[c]); }
    forall r | r in st'.runs && st'.runs[r].state == ACTIVE ensures Current(st', st'.runs[r]) { assert Current(st, st.runs[r]); }
  }

  lemma GrowthKeepsCounts(st: State, st': State, sid: SessionId)
    requires Inv(st) && Widens(st, st', sid)
    ensures MessagesDistinct(st') && OneLiveCandidate(st') && OneRunPerSlot(st') && CountOk(st') && CoverageOk(st')
  {
    hide AgentsOk, CandidatesOk, RunsOk, MessagesOk, ReadyOk, RunsFenced, CountOk, CoverageOk;
    CountsStayWide(st, st', sid);
    CoverageStaysWide(st, st', sid);
  }

  lemma CountsStayWide(st: State, st': State, sid: SessionId)
    requires CandidatesOk(st) && CountOk(st) && Widens(st, st', sid)
    ensures CountOk(st')
  {
    hide AgentsOk;
    forall c | c in st.candidates ensures st.candidates[c].session != sid { assert CandidateOk(st, st.candidates[c]); }
    forall s | s in st'.sessions ensures st'.sessions[s].botCount == |CommittedIn(st', s)| {
      if s == sid { assert CommittedIn(st', s) == {}; } else { assert CommittedIn(st', s) == CommittedIn(st, s); }
    }
    forall c | c in st'.candidates && st'.candidates[c].state == COMMITTED ensures Posted(st', c) { assert Posted(st, c); }
  }

  lemma CoverageStaysWide(st: State, st': State, sid: SessionId)
    requires CoverageOk(st) && Widens(st, st', sid)
    ensures CoverageOk(st')
  {
    hide AgentsOk;
    forall r | r in st'.runs && st'.runs[r].candidate.Some? ensures Covers(st', st'.runs[r]) { assert Covers(st, st.runs[r]); }
    forall c, m | c in st'.candidates && m in st'.messages && st'.messages[m].session == st'.candidates[c].session &&
                  st'.candidates[c].decidedAt < st'.messages[m].revision <= st'.candidates[c].reviewedRevision
      ensures Shown(st', c, Ref(m, st'.messages[m].revision))
    {
      assert Shown(st, c, Ref(m, st.messages[m].revision));
    }
  }
}
