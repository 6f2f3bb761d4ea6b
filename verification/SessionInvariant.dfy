/** What every transaction of the session service keeps. */
module SessionInvariant {
  import opened Wrappers
  import opened Domain
  import opened SessionTypes
  import opened SessionSteps

  ghost predicate AgentsOk(st: State) {
    forall a :: a in st.agents ==>
      st.agents[a].session in st.sessions && st.agents[a].slot in st.workers && (st.agents[a].retired ==> !st.agents[a].enabled)
  }

  ghost predicate CandidateOk(st: State, k: Candidate) {
    && k.agent in st.agents && k.session in st.sessions && k.session == st.agents[k.agent].session
    && k.decidedAt <= k.reviewedRevision <= st.sessions[k.session].revision
    && k.reviewedWake <= st.agents[k.agent].wakeSeq
    && (k.state == READY || k.state == COMMITTED ==> k.text.Some?)
  }

  ghost predicate CandidatesOk(st: State) { forall c :: c in st.candidates ==> CandidateOk(st, st.candidates[c]) }

  ghost predicate RunOk(st: State, r: Run) {
    && r.agent in st.agents && r.session in st.sessions
    && r.session == st.agents[r.agent].session && r.slot == st.agents[r.agent].slot
    && r.wakeSeq <= st.agents[r.agent].wakeSeq
    && r.context.fromRevision <= r.SnapshotRevision() <= st.sessions[r.session].revision
    && (r.candidate.Some? ==> r.candidate.value in st.candidates && BindsCandidate(r, st.candidates[r.candidate.value]))
  }

  /** A run for the candidate's present version starts where the last review ended; a review has a text to review. */
  predicate BindsCandidate(r: Run, k: Candidate) {
    && k.agent == r.agent && r.candidateVersion <= k.version
    && (r.state == ACTIVE && r.candidateVersion == k.version ==> r.context.fromRevision == k.reviewedRevision && (r.kind == Review ==> k.text.Some?))
  }

  ghost predicate RunsOk(st: State) { forall r :: r in st.runs ==> RunOk(st, st.runs[r]) }

  ghost predicate MessageOk(st: State, id: MessageId, m: Message) {
    && m.session in st.sessions
    && 0 < m.revision <= st.sessions[m.session].revision
    && 0 < m.sequence <= st.sessions[m.session].messageSeq
    && (m.author.Some? <==> m.candidate.Some?)
    && (m.candidate.Some? ==> m.candidate.value in st.candidates && PublishedAs(m, st.candidates[m.candidate.value]))
    && (if m.replyTo.None? then m.threadRoot == id else m.replyTo.value in st.messages && Answers(m, st.messages[m.replyTo.value]))
  }

  /** A bot message keeps the revision right after its candidate's last review until it is deleted, which gives it a later one. */
  predicate PublishedAs(m: Message, k: Candidate) {
    && k.state == COMMITTED && m.author == Some(k.agent) && k.session == m.session
    && m.revision >= k.reviewedRevision + 1
    && (m.revision == k.reviewedRevision + 1 <==> !m.deleted)
  }

  predicate Answers(m: Message, parent: Message) {
    parent.session == m.session && parent.sequence < m.sequence && m.threadRoot == parent.threadRoot
  }

  ghost predicate MessagesOk(st: State) { forall m :: m in st.messages ==> MessageOk(st, m, st.messages[m]) }

  ghost predicate MessagesDistinct(st: State) {
    forall x, y :: x in st.messages && y in st.messages && x != y && st.messages[x].session == st.messages[y].session ==>
      st.messages[x].revision != st.messages[y].revision && st.messages[x].sequence != st.messages[y].sequence &&
      (st.messages[x].candidate.Some? ==> st.messages[x].candidate != st.messages[y].candidate)
  }

  ghost predicate OneLiveCandidate(st: State) {
    forall c, d :: c in st.candidates && d in st.candidates && Live(st.candidates[c].state) && Live(st.candidates[d].state) && st.candidates[c].agent == st.candidates[d].agent ==> c == d
  }

  ghost predicate OneRunPerSlot(st: State) {
    forall r, q :: r in st.runs && q in st.runs && st.runs[r].state == ACTIVE && st.runs[q].state == ACTIVE && st.runs[r].slot == st.runs[q].slot ==> r == q
  }

  ghost function CommittedIn(st: State, sid: SessionId): set<CandidateId> {
    set c | c in st.candidates && st.candidates[c].session == sid && st.candidates[c].state == COMMITTED
  }

  ghost predicate Posted(st: State, c: CandidateId) { exists m :: m in st.messages && st.messages[m].candidate == Some(c) }

  ghost predicate CountOk(st: State) {
    && (forall s :: s in st.sessions ==> st.sessions[s].botCount == |CommittedIn(st, s)|)
    && (forall c :: c in st.candidates && st.candidates[c].state == COMMITTED ==> Posted(st, c))
  }

  /** A completed run of the candidate listed the message at this revision. */
  ghost predicate Shown(st: State, c: CandidateId, ref: Ref) {
    exists r :: r in st.runs && st.runs[r].state == DONE && st.runs[r].candidate == Some(c) && ref in st.runs[r].context.delta
  }

  ghost predicate Covers(st: State, r: Run) {
    forall m :: m in st.messages && st.messages[m].session == r.session && r.context.fromRevision < st.messages[m].revision <= r.SnapshotRevision() ==>
      Ref(m, st.messages[m].revision) in r.context.delta
  }

  ghost predicate CoverageOk(st: State) {
    && (forall r :: r in st.runs && st.runs[r].candidate.Some? ==> Covers(st, st.runs[r]))
    && SawAll(st)
  }

  /** A candidate's completed runs showed every change between its decision and its last review. */
  ghost predicate SawAll(st: State) {
    forall c, m :: c in st.candidates && m in st.messages && st.messages[m].session == st.candidates[c].session &&
                   st.candidates[c].decidedAt < st.messages[m].revision <= st.candidates[c].reviewedRevision ==>
      Shown(st, c, Ref(m, st.messages[m].revision))
  }

  ghost predicate Core(st: State) {
    && AgentsOk(st) && CandidatesOk(st) && RunsOk(st) && MessagesOk(st) && MessagesDistinct(st)
    && OneLiveCandidate(st) && OneRunPerSlot(st) && CountOk(st) && CoverageOk(st)
  }

  /** Nobody is ready to publish against a history that moved on. */
  ghost predicate ReadyOk(st: State) {
    forall c :: c in st.candidates && st.candidates[c].state == READY ==> MayPublish(st, st.candidates[c])
  }

  ghost predicate MayPublish(st: State, k: Candidate) {
    && k.agent in st.agents && st.agents[k.agent].enabled && !st.agents[k.agent].retired
    && k.session in st.sessions && st.sessions[k.session].lifecycle == RUNNING && k.reviewedRevision == st.sessions[k.session].revision
  }

  /** No live run survives the generation it was started in. */
  ghost predicate RunsFenced(st: State) {
    forall r :: r in st.runs && st.runs[r].state == ACTIVE ==> Current(st, st.runs[r])
  }

  ghost predicate Current(st: State, r: Run) {
    && r.session in st.sessions && st.sessions[r.session].lifecycle == RUNNING && r.sessionEpoch == st.sessions[r.session].epoch
    && r.slot in st.workers && r.workerEpoch == st.workers[r.slot]
    && r.agent in st.agents && st.agents[r.agent].enabled
  }

  ghost predicate Inv(st: State) { Core(st) && ReadyOk(st) && RunsFenced(st) }

  lemma InvLinked(st: State)
    requires Inv(st)
    ensures Linked(st)
  {
  }

  // ---------------------------------------------------------------- steps that publish and review nothing

  /** Candidates only move between live states or out; runs only stop; nothing is published or reviewed. */
  ghost predicate Settles(st: State, st': State) {
    && st'.messages == st.messages
    && st'.sessions.Keys == st.sessions.Keys && st'.candidates.Keys == st.candidates.Keys && st'.runs.Keys == st.runs.Keys
    && st.agents.Keys <= st'.agents.Keys && st.workers.Keys <= st'.workers.Keys
    && (forall s :: s in st.sessions ==> SameLedger(st.sessions[s], st'.sessions[s]))
    && (forall a :: a in st.agents ==> SameOwner(st.agents[a], st'.agents[a]))
    && (forall c :: c in st.candidates ==> OnlyMoved(st.candidates[c], st'.candidates[c]))
    && (forall r :: r in st.runs ==> OnlyStopped(st.runs[r], st'.runs[r]))
  }

  predicate SameLedger(s: Session, s': Session) { s.revision <= s'.revision && s'.messageSeq == s.messageSeq && s'.botCount == s.botCount }

  predicate SameOwner(a: Agent, a': Agent) { a'.session == a.session && a'.slot == a.slot && a.wakeSeq <= a'.wakeSeq }

  predicate OnlyMoved(k: Candidate, k': Candidate) {
    k' == k.(state := k'.state) && (k'.state == k.state || (Live(k.state) && k'.state != READY && k'.state != COMMITTED))
  }

  predicate OnlyStopped(r: Run, r': Run) {
    && r' == r.(state := r'.state, leaseUntil := r'.leaseUntil, resultHash := r'.resultHash)
    && (r'.state == r.state || r.state == ACTIVE)
  }

  lemma SettlesKeepsCore(st: State, st': State)
    requires Core(st) && Settles(st, st') && AgentsOk(st')
    ensures Core(st')
  {
    SettlesKeepsCandidates(st, st');
    SettlesKeepsRuns(st, st');
    SettlesKeepsMessages(st, st');
    SettlesKeepsExclusion(st, st');
    SettlesKeepsCount(st, st');
    SettlesKeepsCoverage(st, st');
  }

  lemma SettlesKeepsCandidates(st: State, st': State)
    requires CandidatesOk(st) && Settles(st, st') && AgentsOk(st')
    ensures CandidatesOk(st')
  {
    forall c | c in st'.candidates ensures CandidateOk(st', st'.candidates[c]) {
      var k := st.candidates[c];
      assert CandidateOk(st, k) && OnlyMoved(k, st'.candidates[c]);
      assert SameOwner(st.agents[k.agent], st'.agents[k.agent]) && SameLedger(st.sessions[k.session], st'.sessions[k.session]);
    }
  }

  lemma SettlesKeepsRuns(st: State, st': State)
    requires RunsOk(st) && Settles(st, st') && AgentsOk(st')
    ensures RunsOk(st')
  {
    forall r | r in st'.runs ensures RunOk(st', st'.runs[r]) {
      var x := st.runs[r];
      assert RunOk(st, x) && OnlyStopped(x, st'.runs[r]);
      assert SameOwner(st.agents[x.agent], st'.agents[x.agent]) && SameLedger(st.sessions[x.session], st'.sessions[x.session]);
      if x.candidate.Some? {
        assert OnlyMoved(st.candidates[x.candidate.value], st'.candidates[x.candidate.value]);
      }
    }
  }

  lemma SettlesKeepsMessages(st: State, st': State)
    requires MessagesOk(st) && Settles(st, st')
    ensures MessagesOk(st')
  {
    forall m | m in st'.messages ensures MessageOk(st', m, st'.messages[m]) {
      var x := st.messages[m];
      assert MessageOk(st, m, x) && SameLedger(st.sessions[x.session], st'.sessions[x.session]);
      if x.candidate.Some? {
        assert OnlyMoved(st.candidates[x.candidate.value], st'.candidates[x.candidate.value]);
      }
    }
  }

  lemma SettlesKeepsExclusion(st: State, st': State)
    requires OneLiveCandidate(st) && OneRunPerSlot(st) && Settles(st, st')
    ensures OneLiveCandidate(st') && OneRunPerSlot(st')
  {
    forall c | c in st.candidates ensures Live(st'.candidates[c].state) ==> Live(st.candidates[c].state) && st'.candidates[c].agent == st.candidates[c].agent {
      assert OnlyMoved(st.candidates[c], st'.candidates[c]);
    }
    forall r | r in st.runs ensures st'.runs[r].state == ACTIVE ==> st.runs[r].state == ACTIVE && st'.runs[r].slot == st.runs[r].slot {
      assert OnlyStopped(st.runs[r], st'.runs[r]);
    }
  }

  lemma SettlesKeepsCount(st: State, st': State)
    requires CountOk(st) && Settles(st, st')
    ensures CountOk(st')
  {
    forall c | c in st.candidates
      ensures st'.candidates[c].session == st.candidates[c].session && (st'.candidates[c].state == COMMITTED <==> st.candidates[c].state == COMMITTED)
    {
      assert OnlyMoved(st.candidates[c], st'.candidates[c]);
    }
    forall s | s in st'.sessions ensures st'.sessions[s].botCount == |CommittedIn(st', s)| {
      assert SameLedger(st.sessions[s], st'.sessions[s]);
      assert CommittedIn(st', s) == CommittedIn(st, s);
    }
    forall c | c in st'.candidates && st'.candidates[c].state == COMMITTED ensures Posted(st', c) { assert Posted(st, c); }
  }

  lemma SettlesKeepsCoverage(st: State, st': State)
    requires CoverageOk(st) && Settles(st, st')
    ensures CoverageOk(st')
  {
    forall r | r in st'.runs && st'.runs[r].candidate.Some? ensures Covers(st', st'.runs[r]) { assert Covers(st, st.runs[r]); }
    forall c, m | c in st'.candidates && m in st'.messages && st'.messages[m].session == st'.candidates[c].session &&
                  st'.candidates[c].decidedAt < st'.messages[m].revision <= st'.candidates[c].reviewedRevision
      ensures Shown(st', c, Ref(m, st'.messages[m].revision))
    {
      ShownStays(st, st', c, Ref(m, st.messages[m].revision));
    }
  }

  lemma ShownStays(st: State, st': State, c: CandidateId, ref: Ref)
    requires Shown(st, c, ref)
    requires forall r :: r in st.runs ==> r in st'.runs && (st.runs[r].state == DONE ==> st'.runs[r] == st.runs[r] || OnlyStopped(st.runs[r], st'.runs[r]))
    ensures Shown(st', c, ref)
  {
    var r :| r in st.runs && st.runs[r].state == DONE && st.runs[r].candidate == Some(c) && ref in st.runs[r].context.delta;
    assert st'.runs[r].state == DONE && st'.runs[r].candidate == Some(c) && ref in st'.runs[r].context.delta;
  }

  /** Waking takes every READY candidate of an enabled agent back to review and touches no run or session. */
  lemma WakeSettles(st: State, who: map<AgentId, Trigger>, author: Option<AgentId>, now: nat)
    requires Linked(st)
    ensures var st' := WakeAll(st, who, author, now);
      && Settles(st, st') && st'.messages == st.messages && st'.sessions == st.sessions && st'.runs == st.runs && st'.workers == st.workers && st'.agents.Keys == st.agents.Keys
      && (forall a :: a in st.agents ==> st'.agents[a].enabled == st.agents[a].enabled && st'.agents[a].retired == st.agents[a].retired)
      && (forall c :: c in st'.candidates && st'.candidates[c].state == READY ==> st'.candidates[c] == st.candidates[c] && !Woken(st, who, st.candidates[c].agent))
  {
    var st' := WakeAll(st, who, author, now);
    forall a | a in st.agents
      ensures SameOwner(st.agents[a], st'.agents[a]) && st'.agents[a].enabled == st.agents[a].enabled && st'.agents[a].retired == st.agents[a].retired
    {
      if a in who { WokenAgentKeeps(st.agents[a], st.sessions[st.agents[a].session].settings, who[a], author, now); }
    }
    forall c | c in st.candidates
      ensures OnlyMoved(st.candidates[c], st'.candidates[c])
      ensures st'.candidates[c].state == READY ==> st'.candidates[c] == st.candidates[c] && !Woken(st, who, st.candidates[c].agent)
    {
      var k := st.candidates[c];
      if Woken(st, who, k.agent) { WokenCandidateKeeps(k, WakeResumes(st.agents[k.agent], who[k.agent], author, now)); }
    }
  }

  predicate Woken(st: State, who: map<AgentId, Trigger>, a: AgentId) { a in who && a in st.agents && st.agents[a].enabled }

  lemma WokenAgentKeeps(a: Agent, cfg: Settings, trigger: Trigger, author: Option<AgentId>, now: nat)
    ensures var a' := WokenAgent(a, cfg, trigger, author, now);
      SameOwner(a, a') && a'.enabled == a.enabled && a'.retired == a.retired && (a.enabled ==> a'.wakeSeq == a.wakeSeq + 1)
  {
  }

  lemma WokenCandidateKeeps(k: Candidate, resumes: bool)
    ensures OnlyMoved(k, WokenCandidate(k, resumes)) && WokenCandidate(k, resumes).state != READY
  {
  }

  /** Whoever is ready against an old history only has to be woken for the invariant to hold again. */
  lemma WakeRestoresInv(st: State, who: map<AgentId, Trigger>, author: Option<AgentId>, now: nat)
    requires Core(st) && RunsFenced(st) && Linked(st)
    requires forall c :: c in st.candidates && st.candidates[c].state == READY ==> MayPublish(st, st.candidates[c]) || Woken(st, who, st.candidates[c].agent)
    ensures Inv(WakeAll(st, who, author, now)) && WakeAll(st, who, author, now).agents.Keys == st.agents.Keys && Linked(WakeAll(st, who, author, now))
  {
    hide WakeAll, CandidatesOk, RunsOk, MessagesOk, MessagesDistinct, OneLiveCandidate, OneRunPerSlot, CountOk, CoverageOk;
    WakeSettles(st, who, author, now);
    var st' := WakeAll(st, who, author, now);
    assert AgentsOk(st') by {
      forall a | a in st'.agents ensures st'.agents[a].session in st'.sessions && st'.agents[a].slot in st'.workers { assert SameOwner(st.agents[a], st'.agents[a]); }
    }
    SettlesKeepsCore(st, st');
    assert ReadyOk(st') by {
      forall c | c in st'.candidates && st'.candidates[c].state == READY ensures MayPublish(st', st'.candidates[c]) { assert MayPublish(st, st.candidates[c]); }
    }
    assert RunsFenced(st') by {
      forall r | r in st'.runs && st'.runs[r].state == ACTIVE ensures Current(st', st'.runs[r]) { assert Current(st, st.runs[r]); }
    }
  }

  lemma WakeKeepsInv(st: State, who: map<AgentId, Trigger>, author: Option<AgentId>, now: nat)
    requires Inv(st)
    ensures Inv(WakeAll(st, who, author, now)) && WakeAll(st, who, author, now).agents.Keys == st.agents.Keys && Linked(WakeAll(st, who, author, now))
  {
    hide WakeAll, CandidatesOk, RunsOk, MessagesOk, MessagesDistinct, OneLiveCandidate, OneRunPerSlot, CountOk, CoverageOk, RunsFenced;
    WakeRestoresInv(st, who, author, now);
  }
}
