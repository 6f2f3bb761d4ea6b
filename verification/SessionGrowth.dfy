/** What no transaction ever takes back: counters only rise, and a decided candidate, a finished run and a deleted message stay as they are. */
module SessionGrowth {
  import opened Wrappers
  import opened Domain
  import opened SessionTypes
  import opened SessionSteps
  import opened SessionInvariant
  import opened SessionPublishing

  predicate SessionGrows(s: Session, s': Session) {
    && s.revision <= s'.revision && s.epoch <= s'.epoch && s.messageSeq <= s'.messageSeq && s.botCount <= s'.botCount
    && (s.lifecycle == ENDED ==> s'.lifecycle == ENDED)
  }

  predicate AgentGrows(a: Agent, a': Agent) { SameOwner(a, a') && (a.retired ==> a'.retired) }

  predicate CandidateGrows(k: Candidate, k': Candidate) {
    && k'.agent == k.agent && k'.session == k.session && k'.decidedAt == k.decidedAt && k'.firstInterestedAt == k.firstInterestedAt
    && k.version <= k'.version && k.reviewedRevision <= k'.reviewedRevision
    && (!Live(k.state) ==> k' == k)
  }

  predicate RunGrows(r: Run, r': Run) {
    r' == r.(state := r'.state, leaseUntil := r'.leaseUntil, resultHash := r'.resultHash) && (r.state != ACTIVE ==> r' == r)
  }

  predicate MessageGrows(m: Message, m': Message) {
    && m' == m.(text := m'.text, deleted := m'.deleted, revision := m'.revision)
    && m.revision <= m'.revision && (m'.revision == m.revision || m.deleted ==> m' == m)
    && (m.author.Some? && !m'.deleted ==> m' == m)
  }

  ghost predicate Grows(st: State, st': State) {
    && st.sessions.Keys <= st'.sessions.Keys && st.agents.Keys <= st'.agents.Keys && st.candidates.Keys <= st'.candidates.Keys
    && st.runs.Keys <= st'.runs.Keys && st.messages.Keys <= st'.messages.Keys && st.workers.Keys == st'.workers.Keys
    && (forall s :: s in st.sessions ==> SessionGrows(st.sessions[s], st'.sessions[s]))
    && (forall a :: a in st.agents ==> AgentGrows(st.agents[a], st'.agents[a]))
    && (forall c :: c in st.candidates ==> CandidateGrows(st.candidates[c], st'.candidates[c]))
    && (forall r :: r in st.runs ==> RunGrows(st.runs[r], st'.runs[r]))
    && (forall m :: m in st.messages ==> MessageGrows(st.messages[m], st'.messages[m]))
    && (forall w :: w in st.workers ==> st.workers[w] <= st'.workers[w])
  }

  lemma GrowsTransitive(st: State, mid: State, st': State)
    requires Grows(st, mid) && Grows(mid, st')
    ensures Grows(st, st')
  {
    forall s | s in st.sessions ensures SessionGrows(st.sessions[s], st'.sessions[s]) { assert SessionGrows(st.sessions[s], mid.sessions[s]); }
    forall a | a in st.agents ensures AgentGrows(st.agents[a], st'.agents[a]) { assert AgentGrows(st.agents[a], mid.agents[a]); }
    forall c | c in st.candidates ensures CandidateGrows(st.candidates[c], st'.candidates[c]) { assert CandidateGrows(st.candidates[c], mid.candidates[c]); }
    forall r | r in st.runs ensures RunGrows(st.runs[r], st'.runs[r]) { assert RunGrows(st.runs[r], mid.runs[r]); }
    forall m | m in st.messages ensures MessageGrows(st.messages[m], st'.messages[m]) { assert MessageGrows(st.messages[m], mid.messages[m]); }
    forall w | w in st.workers ensures st.workers[w] <= st'.workers[w] { assert st.workers[w] <= mid.workers[w]; }
  }

  lemma WakeGrows(st: State, who: map<AgentId, Trigger>, author: Option<AgentId>, now: nat)
    requires Linked(st)
    ensures Grows(st, WakeAll(st, who, author, now))
  {
    hide WakeAll;
    WakeSettles(st, who, author, now);
    var st' := WakeAll(st, who, author, now);
    forall a | a in st.agents ensures AgentGrows(st.agents[a], st'.agents[a]) { assert SameOwner(st.agents[a], st'.agents[a]); }
    forall c | c in st.candidates ensures CandidateGrows(st.candidates[c], st'.candidates[c]) { assert OnlyMoved(st.candidates[c], st'.candidates[c]); }
  }

  lemma GrowsThenWakes(st: State, mid: State, who: map<AgentId, Trigger>, author: Option<AgentId>, now: nat)
    requires Grows(st, mid) && Linked(mid)
    ensures Grows(st, WakeAll(mid, who, author, now))
  {
    hide WakeAll, Grows;
    WakeGrows(mid, who, author, now);
    GrowsTransitive(st, mid, WakeAll(mid, who, author, now));
  }

  lemma CancelThenMoveGrows(st: State, mid: State, sid: SessionId, slot: Option<Slot>, from: set<CandidateState>, to: CandidateState)
    requires Grows(st, mid) && from <= LIVE
    ensures Grows(st, MoveCandidates(CancelRuns(mid, sid, slot), sid, from, to)) && Grows(st, CancelRuns(mid, sid, slot))
  {
    hide Grows;
    CancelGrows(mid, sid, slot);
    MoveGrows(CancelRuns(mid, sid, slot), sid, from, to);
    GrowsTransitive(st, mid, CancelRuns(mid, sid, slot));
    GrowsTransitive(st, CancelRuns(mid, sid, slot), MoveCandidates(CancelRuns(mid, sid, slot), sid, from, to));
  }

  lemma CancelGrows(st: State, sid: SessionId, slot: Option<Slot>)
    ensures Grows(st, CancelRuns(st, sid, slot))
  {
  }

  lemma MoveGrows(st: State, sid: SessionId, from: set<CandidateState>, to: CandidateState)
    requires from <= LIVE
    ensures Grows(st, MoveCandidates(st, sid, from, to))
  {
  }

  lemma MoveOwnGrows(st: State, mid: State, a: AgentId, from: set<CandidateState>, to: CandidateState)
    requires Grows(st, mid) && from <= LIVE
    ensures Grows(st, MoveOwn(mid, a, from, to))
  {
    hide Grows;
    OwnGrows(mid, a, from, to);
    GrowsTransitive(st, mid, MoveOwn(mid, a, from, to));
  }

  lemma OwnGrows(st: State, a: AgentId, from: set<CandidateState>, to: CandidateState)
    requires from <= LIVE
    ensures Grows(st, MoveOwn(st, a, from, to))
  {
  }

  lemma SessionRowGrows(st: State, sid: SessionId, s: Session)
    requires sid in st.sessions && SessionGrows(st.sessions[sid], s)
    ensures Grows(st, st.(sessions := st.sessions[sid := s]))
  {
  }

  lemma AgentRowsGrow(st: State, agents: map<AgentId, Agent>)
    requires st.agents.Keys <= agents.Keys && forall a :: a in st.agents ==> AgentGrows(st.agents[a], agents[a])
    ensures Grows(st, st.(agents := agents))
  {
  }

  // ---------------------------------------------------------------- operator commands

  lemma PauseForLimitGrows(st: State, sid: SessionId)
    requires sid in st.sessions && st.sessions[sid].lifecycle != ENDED
    ensures Grows(st, PauseForLimit(st, sid))
  {
    hide Grows;
    var s := st.sessions[sid];
    var s' := s.(lifecycle := PAUSED, budgetPaused := true, userPaused := false, epoch := s.epoch + 1);
    SessionRowGrows(st, sid, s');
    CancelThenMoveGrows(st, st.(sessions := st.sessions[sid := s']), sid, None, {READY}, NEEDS_REVIEW);
  }

  lemma LifecycleGrows(st: State, sid: SessionId, action: Action, budgetOpen: bool, maxRunning: nat, now: nat)
    requires Linked(st)
    ensures var out := Lifecycled(st, sid, action, budgetOpen, maxRunning, now); out.Ok? ==> Grows(st, out.state)
  {
    hide Grows, WakeAll;
    var out := Lifecycled(st, sid, action, budgetOpen, maxRunning, now);
    if out.Ok? {
      var s := st.sessions[sid];
      SessionRowGrows(st, sid, s.(lifecycle := RUNNING, budgetPaused := false, userPaused := false, epoch := s.epoch + 1));
      SessionRowGrows(st, sid, s.(lifecycle := PAUSED, userPaused := true, epoch := s.epoch + 1));
      SessionRowGrows(st, sid, s.(lifecycle := ENDED, userPaused := false, epoch := s.epoch + 1));
      var running := st.(sessions := st.sessions[sid := s.(lifecycle := RUNNING, budgetPaused := false, userPaused := false, epoch := s.epoch + 1)]);
      CancelThenMoveGrows(st, running, sid, None, {READY}, NEEDS_REVIEW);
      var fenced := MoveCandidates(CancelRuns(running, sid, None), sid, {READY}, NEEDS_REVIEW);
      GrowsThenWakes(st, fenced, Everyone(Members(fenced, sid), RECOVERY), None, now);
      CancelThenMoveGrows(st, st.(sessions := st.sessions[sid := s.(lifecycle := PAUSED, userPaused := true, epoch := s.epoch + 1)]), sid, None, {READY}, NEEDS_REVIEW);
      CancelThenMoveGrows(st, st.(sessions := st.sessions[sid := s.(lifecycle := ENDED, userPaused := false, epoch := s.epoch + 1)]), sid, None, LIVE, DROPPED);
    }
  }

  lemma StillCommandGrows(st: State, sid: SessionId, s: Session)
    requires sid in st.sessions && SessionGrows(st.sessions[sid], s)
    ensures Grows(st, CancelRuns(st.(sessions := st.sessions[sid := s]), sid, None))
  {
    hide Grows;
    SessionRowGrows(st, sid, s);
    CancelThenMoveGrows(st, st.(sessions := st.sessions[sid := s]), sid, None, {}, DROPPED);
  }

  lemma RenewAutomaticGrows(st: State, sid: SessionId, windowOver: bool, maxRunning: nat, now: nat)
    requires Linked(st)
    ensures var out := RenewAutomatic(st, sid, windowOver, maxRunning, now); out.Ok? ==> Grows(st, out.state)
  {
    hide WakeAll, Grows, RenewsItself;
    GrowsRefl(st);
    var out := RenewAutomatic(st, sid, windowOver, maxRunning, now);
    if out.Ok? && out.state != st {
      var s, cancelled := st.sessions[sid], CancelRuns(st, sid, None);
      var s' := s.(lifecycle := RUNNING, budgetPaused := false, userPaused := false, windowPostStart := s.botCount, epoch := s.epoch + 1);
      var running := cancelled.(sessions := st.sessions[sid := s']);
      var fenced := MoveCandidates(running, sid, {READY}, NEEDS_REVIEW);
      CancelGrows(st, sid, None);
      RenewableIsOpen(s, windowOver);
      SessionRowGrows(cancelled, sid, s');
      GrowsTransitive(st, cancelled, running);
      MoveGrows(running, sid, {READY}, NEEDS_REVIEW);
      GrowsTransitive(st, running, fenced);
      GrowsThenWakes(st, fenced, Everyone(Members(fenced, sid), OTHER), None, now);
    }
  }

  lemma RenewableIsOpen(s: Session, windowOver: bool)
    requires RenewsItself(s, windowOver)
    ensures s.lifecycle != ENDED
  {
  }

  lemma SetAgentEnabledGrows(st: State, sid: SessionId, a: AgentId, enabled: bool)
    ensures var out := SetAgentEnabled(st, sid, a, enabled); out.Ok? ==> Grows(st, out.state)
  {
  }

  lemma RegroupedGrows(st: State, sid: SessionId, kept: map<AgentId, Selection>, joined: map<AgentId, Selection>)
    requires sid in st.sessions && joined.Keys !! st.agents.Keys && kept.Keys <= Members(st, sid)
    ensures Grows(st, Regrouped(st, sid, kept, joined))
  {
  }

  lemma ApplyMembershipGrows(st: State, sid: SessionId, expectedEpoch: nat, kept: map<AgentId, Selection>, joined: map<AgentId, Selection>)
    ensures var out := ApplyMembership(st, sid, expectedEpoch, kept, joined); out.Ok? ==> Grows(st, out.state)
  {
    hide Regrouped, Grows, MoveCandidates, CancelRuns;
    GrowsRefl(st);
    var out := ApplyMembership(st, sid, expectedEpoch, kept, joined);
    if out.Ok? {
      RegroupedGrows(st, sid, kept, joined);
      CancelThenMoveGrows(st, Regrouped(st, sid, kept, joined), sid, None, LIVE, DROPPED);
    }
  }

  lemma RetryAgentGrows(st: State, sid: SessionId, a: AgentId, now: nat)
    requires Linked(st)
    ensures var out := RetryAgent(st, sid, a, now); out.Ok? ==> Grows(st, out.state)
  {
    hide WakeAll;
    var out := RetryAgent(st, sid, a, now);
    if out.Ok? {
      var reset := CancelRuns(st, sid, Some(st.agents[a].slot)).(agents := st.agents[a := st.agents[a].(errorCount := 0, retryAt := None)]);
      GrowsThenWakes(st, reset, map[a := RECOVERY], None, now);
    }
  }

  lemma RecoverGrows(st: State, resume: bool, now: nat)
    requires Linked(st)
    ensures Grows(st, Recover(st, resume, now))
  {
    hide WakeAll;
    var fenced := Regenerated(st, resume);
    assert Grows(st, fenced);
    GrowsThenWakes(st, fenced, Everyone(RunningAgents(fenced), RECOVERY), None, now);
  }

  // ---------------------------------------------------------------- messages and sources

  lemma AppendGrows(st: State, sid: SessionId, id: MessageId, author: Option<AgentId>, text: Text, intent: Intent, candidate: Option<CandidateId>, now: nat)
    requires Linked(st) && sid in st.sessions && IntentProblem(st, sid, author, intent).Pass? && id !in st.messages
    ensures Grows(st, Append(st, sid, id, author, text, intent, candidate, now))
  {
    hide WakeAll, IntentProblem, NewMessage;
    var posted := Inserted(st, sid, id, author, text, intent, candidate, now);
    assert Grows(st, posted);
    GrowsThenWakes(st, posted, Audience(st, sid, author, intent.addressedTo), author, now);
  }

  lemma HumanMessageGrows(st: State, sid: SessionId, id: MessageId, text: Text, intent: Intent, now: nat)
    requires Linked(st)
    ensures var out := HumanMessage(st, sid, id, text, intent, now); out.Ok? ==> Grows(st, out.state)
  {
    hide Grows, Append, IntentProblem;
    if HumanMessage(st, sid, id, text, intent, now).Ok? { AppendGrows(st, sid, id, None, text, intent, None, now); }
  }

  lemma ChangeMessageGrows(st: State, sid: SessionId, id: MessageId, text: Option<Text>, now: nat)
    requires Linked(st) && MessagesOk(st)
    ensures var out := ChangeMessage(st, sid, id, text, now); out.Ok? ==> Grows(st, out.state)
  {
    hide WakeAll;
    var out := ChangeMessage(st, sid, id, text, now);
    if out.Ok? {
      assert MessageOk(st, id, st.messages[id]);
      assert Grows(st, Edited(st, sid, id, text));
      GrowsThenWakes(st, Edited(st, sid, id, text), Everyone(Members(st, sid), EDIT), None, now);
    }
  }

  lemma ApplySourceGrows(st: State, sid: SessionId, revision: bool, was: set<AgentId>, can: set<AgentId>, now: nat)
    requires Linked(st)
    ensures var out := ApplySource(st, sid, revision, was, can, now); out.Ok? ==> Grows(st, out.state)
  {
    hide WakeAll;
    var out := ApplySource(st, sid, revision, was, can, now);
    if out.Ok? {
      var told := Told(st, sid, revision, was, can);
      var fenced := SourceFenced(st, sid, revision, told, was, can);
      assert Grows(st, fenced);
      GrowsThenWakes(st, fenced, Everyone(told, OTHER), None, now);
    }
  }

  // ---------------------------------------------------------------- workers

  lemma RegisterWorkerGrows(st: State, slot: Slot, now: nat)
    requires Linked(st)
    ensures var out := RegisterWorker(st, slot, now); out.Ok? ==> Grows(st, out.state)
  {
    hide WakeAll;
    if slot in st.workers {
      assert Grows(st, Reregistered(st, slot));
      GrowsThenWakes(st, Reregistered(st, slot), Everyone(InRunning(st, Owners(st, slot)), RECOVERY), None, now);
    }
  }

  lemma DropStaleRunGrows(st: State, slot: Slot, now: nat)
    requires Linked(st)
    ensures Grows(st, DropStaleRun(st, slot, now))
  {
    hide WakeAll, Grows, CancelRuns;
    GrowsRefl(st);
    var previous := ActiveRun(st, slot);
    if previous.Some? {
      CancelGrows(st, st.runs[previous.value].session, Some(slot));
      CancelLinked(st, st.runs[previous.value].session, Some(slot));
      GrowsThenWakes(st, CancelRuns(st, st.runs[previous.value].session, Some(slot)), map[st.runs[previous.value].agent := OTHER], None, now);
    }
  }

  lemma CancelLinked(st: State, sid: SessionId, slot: Option<Slot>)
    requires Linked(st)
    ensures Linked(CancelRuns(st, sid, slot))
  {
  }

  lemma GrowsRefl(st: State)
    ensures Grows(st, st)
  {
  }

  lemma ClaimGrows(st: State, slot: Slot, epoch: nat, oldReusable: bool, overflowed: set<AgentId>, choice: Option<AgentId>, p: Prospect, id: RunId, token: Token, now: nat)
    requires Linked(st)
    ensures var out := Claim(st, slot, epoch, oldReusable, overflowed, choice, p, id, token, now); out.Ok? ==> Grows(st, out.state)
  {
    hide DropStaleRun, Grows, StartRun, GiveUp;
    GrowsRefl(st);
    if slot in st.workers {
      DropStaleRunGrows(st, slot, now);
      var ready := DropStaleRun(st, slot, now);
      GiveUpGrows(ready, slot, overflowed);
      StartRunGrows(GiveUp(ready, slot, overflowed), slot, epoch, overflowed, choice, p, id, token, now);
      GrowsTransitive(st, ready, GiveUp(ready, slot, overflowed));
      var out := StartRun(GiveUp(ready, slot, overflowed), slot, epoch, overflowed, choice, p, id, token, now);
      if out.Ok? { GrowsTransitive(st, GiveUp(ready, slot, overflowed), out.state); }
    }
  }

  lemma GiveUpGrows(st: State, slot: Slot, overflowed: set<AgentId>)
    requires Linked(st)
    ensures Grows(st, GiveUp(st, slot, overflowed))
  {
  }

  lemma StartRunGrows(st: State, slot: Slot, epoch: nat, overflowed: set<AgentId>, choice: Option<AgentId>, p: Prospect, id: RunId, token: Token, now: nat)
    requires Linked(st)
    ensures var out := StartRun(st, slot, epoch, overflowed, choice, p, id, token, now); out.Ok? ==> Grows(st, out.state)
  {
    hide NewRun, KindFor, Claimable;
  }

  lemma ApplyOutputGrows(st: State, r: Run, out: Output, v: Verdict, now: nat)
    requires r.session in st.sessions && r.agent in st.agents && RunOk(st, r) && r.state == ACTIVE && Fits(r.kind, out)
    requires forall c :: r.candidate == Some(c) ==> st.candidates[c].version == r.candidateVersion && Live(st.candidates[c].state)
    ensures var o := ApplyOutput(st, r, out, v, now); o.Ok? ==> Grows(st, o.state)
  {
    hide IntentProblem, LiveCandidate, UpToDate, Grows, DeferAgent, MoveOwn;
    GrowsRefl(st);
    MoveOwnGrows(st, st, r.agent, {READY}, NEEDS_REVIEW);
    var o := ApplyOutput(st, r, out, v, now);
    if out.Wait? { DeferAgentGrows(st, r.agent, out.kind, out.afterMs, now); }
    if o.Ok? && out.Speak? { CandidateRowGrows(st, v.newId, o.state.candidates[v.newId]); }
    if o.Ok? && r.candidate.Some? && (r.kind == Draft || r.kind == Review) && !out.Wait? {
      CandidateRowGrows(st, r.candidate.value, o.state.candidates[r.candidate.value]);
    }
  }

  lemma CandidateRowGrows(st: State, c: CandidateId, k: Candidate)
    requires c in st.candidates ==> CandidateGrows(st.candidates[c], k)
    ensures Grows(st, st.(candidates := st.candidates[c := k]))
  {
  }

  lemma DeferAgentGrows(st: State, a: AgentId, kind: DeferralKind, afterMs: nat, now: nat)
    requires a in st.agents
    ensures var out := DeferAgent(st, a, kind, afterMs, now); out.Ok? ==> Grows(st, out.state)
  {
    hide Grows, MoveOwn;
    var until := now + afterMs;
    var agents := st.agents[a := st.agents[a].(deferral := Some(Deferral(kind, until)), dueAt := Some(until))];
    AgentRowsGrow(st, agents);
    MoveOwnGrows(st, st.(agents := agents), a, LIVE, DEFERRED);
  }

  lemma FinishedGrows(st: State, id: RunId, digest: nat)
    requires id in st.runs && st.runs[id].state == ACTIVE
    ensures Grows(st, Finished(st, id, digest))
  {
  }

  lemma CompleteRunGrows(st: State, slot: Slot, epoch: nat, id: RunId, token: Token, out: Output, v: Verdict, now: nat)
    requires RunsOk(st)
    ensures var o := CompleteRun(st, slot, epoch, id, token, out, v, now); o.Ok? ==> Grows(st, o.state)
  {
    hide ApplyOutput, Settled, MoveOwn, Fits, Grows;
    GrowsRefl(st);
    var o := CompleteRun(st, slot, epoch, id, token, out, v, now);
    if o.Ok? && st.runs[id].state != DONE {
      var r := st.runs[id];
      assert RunOk(st, r);
      var done := Finished(st, id, v.digest);
      FinishedGrows(st, id, v.digest);
      ApplyOutputGrows(done, r, out, v, now);
      var applied := ApplyOutput(done, r, out, v, now).state;
      GrowsTransitive(st, done, applied);
      MoveOwnGrows(st, applied, r.agent, {READY}, NEEDS_REVIEW);
      var reviewed := if v.privateChanged && !Foreground(r.kind) then MoveOwn(applied, r.agent, {READY}, NEEDS_REVIEW) else applied;
      SettlingGrows(reviewed, r, now);
      GrowsTransitive(st, reviewed, o.state);
    }
  }

  lemma SettlingGrows(st: State, r: Run, now: nat)
    ensures Grows(st, st.(agents := if r.agent in st.agents then st.agents[r.agent := Settled(st, r, now)] else st.agents))
  {
    hide LiveCandidate;
  }

  lemma FailRunGrows(st: State, slot: Slot, epoch: nat, id: RunId, token: Token, reusable: bool, providerRetryAt: nat, now: nat)
    requires Linked(st)
    ensures var out := FailRun(st, slot, epoch, id, token, reusable, providerRetryAt, now); out.Ok? ==> Grows(st, out.state)
  {
    hide WakeAll, CancelRuns, Grows;
    GrowsRefl(st);
    var out := FailRun(st, slot, epoch, id, token, reusable, providerRetryAt, now);
    if out.Ok? && st.runs[id].state != FAILED {
      var r := st.runs[id];
      CancelGrows(st, r.session, Some(slot));
      CancelLinked(st, r.session, Some(slot));
      GrowsThenWakes(st, CancelRuns(st, r.session, Some(slot)), map[r.agent := OTHER], None, now);
      if reusable { RunAndOwnerGrow(st, id, out.state.runs[id], r.agent, out.state.agents[r.agent]); }
    }
  }

  lemma RunAndOwnerGrow(st: State, id: RunId, r: Run, a: AgentId, row: Agent)
    requires id in st.runs && RunGrows(st.runs[id], r) && a in st.agents && AgentGrows(st.agents[a], row)
    ensures Grows(st, st.(runs := st.runs[id := r], agents := st.agents[a := row]))
  {
  }

  // ---------------------------------------------------------------- the clock

  lemma ExpireLeasesGrows(st: State, now: nat)
    requires Linked(st)
    ensures Grows(st, ExpireLeases(st, now))
  {
    hide WakeAll;
    assert Grows(st, Lapsed(st, Expired(st, now)));
    GrowsThenWakes(st, Lapsed(st, Expired(st, now)), Everyone(LapsedOwners(st, Expired(st, now)), RECOVERY), None, now);
  }

  lemma StaleReadyGrows(st: State, mid: State, a: AgentId, now: nat)
    requires Linked(mid) && a in mid.agents && Grows(st, mid)
    ensures Grows(st, StaleReady(mid, a, now)) && Linked(StaleReady(mid, a, now))
  {
    assert Grows(mid, StaleReady(mid, a, now));
    GrowsTransitive(st, mid, StaleReady(mid, a, now));
  }

  lemma WakeLinked(st: State, who: map<AgentId, Trigger>, author: Option<AgentId>, now: nat)
    requires Linked(st)
    ensures Linked(WakeAll(st, who, author, now)) && WakeAll(st, who, author, now).agents.Keys == st.agents.Keys
  {
    hide WakeAll;
    WakeSettles(st, who, author, now);
    var st' := WakeAll(st, who, author, now);
    forall a | a in st'.agents ensures st'.agents[a].session in st'.sessions { assert SameOwner(st.agents[a], st'.agents[a]); }
  }

  lemma TickAgentGrows(st: State, a: AgentId, agenda: bool, idle: bool, now: nat)
    requires Linked(st)
    ensures var out := TickAgent(st, a, agenda, idle, now); out.Ok? ==> Grows(st, out.state)
  {
    hide Grows, WakeAll, StaleReady;
    GrowsRefl(st);
    if a in st.agents {
      WakeLinked(st, map[a := AGENDA], None, now);
      GrowsThenWakes(st, st, map[a := AGENDA], None, now);
      var one := if agenda then Wake(st, a, AGENDA, now) else st;
      WakeLinked(one, map[a := OTHER], None, now);
      GrowsThenWakes(st, one, map[a := OTHER], None, now);
      var two := if one.agents[a].deferral.Some? && one.agents[a].deferral.value.until <= now then Wake(one, a, OTHER, now) else one;
      StaleReadyGrows(st, two, a, now);
      GrowsThenWakes(st, StaleReady(two, a, now), map[a := OTHER], None, now);
    }
  }

  lemma PublishGrows(st: State, sid: SessionId, c: CandidateId, id: MessageId, now: nat)
    requires Linked(st) && sid in st.sessions && c in st.candidates && st.candidates[c].text.Some? && id !in st.messages
    requires IntentProblem(st, sid, Some(st.candidates[c].agent), st.candidates[c].intent).Pass? && Live(st.candidates[c].state)
    ensures Grows(st, Publish(st, sid, c, id, now))
  {
    hide Append, IntentProblem, Grows;
    var k := st.candidates[c];
    AppendGrows(st, sid, id, Some(k.agent), k.text.value, k.intent, Some(c), now);
    PostedGrows(st, Append(st, sid, id, Some(k.agent), k.text.value, k.intent, Some(c), now), sid, c);
  }

  /** A candidate that is live before the append may be marked published after it. */
  lemma PostedGrows(st: State, mid: State, sid: SessionId, c: CandidateId)
    requires Grows(st, mid) && sid in st.sessions && c in st.candidates && Live(st.candidates[c].state)
    ensures Grows(st, mid.(candidates := mid.candidates[c := mid.candidates[c].(state := COMMITTED)],
                           sessions := mid.sessions[sid := mid.sessions[sid].(botCount := mid.sessions[sid].botCount + 1)]))
  {
    var st' := mid.(candidates := mid.candidates[c := mid.candidates[c].(state := COMMITTED)],
                    sessions := mid.sessions[sid := mid.sessions[sid].(botCount := mid.sessions[sid].botCount + 1)]);
    forall s | s in st.sessions ensures SessionGrows(st.sessions[s], st'.sessions[s]) { assert SessionGrows(st.sessions[s], mid.sessions[s]); }
    forall k | k in st.candidates ensures CandidateGrows(st.candidates[k], st'.candidates[k]) { assert CandidateGrows(st.candidates[k], mid.candidates[k]); }
  }

  /** What a publication leaves of the session row. */
  lemma PublishedSession(st: State, sid: SessionId, c: CandidateId, id: MessageId, now: nat)
    requires Linked(st) && sid in st.sessions && c in st.candidates && st.candidates[c].text.Some? && st.candidates[c].agent in st.agents
    requires IntentProblem(st, sid, Some(st.candidates[c].agent), st.candidates[c].intent).Pass?
    ensures var st' := Publish(st, sid, c, id, now);
      && st'.sessions == st.sessions[sid := NextRevision(st.sessions[sid], now).(botCount := st.sessions[sid].botCount + 1)]
      && st'.messages == st.messages[id := NewMessage(st, sid, id, Some(st.candidates[c].agent), st.candidates[c].text.value, st.candidates[c].intent, Some(c), now)]
      && st'.runs == st.runs
  {
    hide IntentProblem, NewMessage, WakeAll, Audience, Publish;
    var k := st.candidates[c];
    PublishIsPosting(st, sid, c, id, now);
    WakeSettles(Posting(st, sid, c, id, now), Audience(st, sid, Some(k.agent), k.intent.addressedTo), Some(k.agent), now);
  }

  lemma CommitOneGrows(st: State, sid: SessionId, budgetExceeded: bool, bindingCurrent: bool, id: MessageId, now: nat)
    requires Linked(st)
    ensures var out := CommitOne(st, sid, budgetExceeded, bindingCurrent, id, now); out.Ok? ==> Grows(st, out.state)
  {
    hide Grows, Publish, PauseForLimit, IntentProblem, Round;
    GrowsRefl(st);
    var out := CommitOne(st, sid, budgetExceeded, bindingCurrent, id, now);
    if out.Ok? && st.sessions[sid].lifecycle == RUNNING {
      PauseForLimitGrows(st, sid);
      var pick := Pick(st, sid, now);
      if pick.Some? {
        var c := pick.value;
        BackToReviewGrows(st, c);
        if st.candidates[c].text.Some? && IntentProblem(st, sid, Some(st.candidates[c].agent), st.candidates[c].intent).Pass? && id !in st.messages {
          PublishGrows(st, sid, c, id, now);
          PublishedSession(st, sid, c, id, now);
          var posted := Publish(st, sid, c, id, now);
          PauseForLimitGrows(posted, sid);
          GrowsTransitive(st, posted, PauseForLimit(posted, sid));
        }
      }
    }
  }

  lemma BackToReviewGrows(st: State, c: CandidateId)
    requires c in st.candidates && Live(st.candidates[c].state)
    ensures Grows(st, st.(candidates := st.candidates[c := st.candidates[c].(state := NEEDS_REVIEW)]))
  {
  }
}
