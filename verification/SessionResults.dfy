/** The invariant is kept when a worker takes a run and when it returns the result. */
module SessionResults {
  import opened Wrappers
  import opened Domain
  import opened SessionTypes
  import opened SessionSteps
  import opened SessionInvariant
  import opened SessionFences

  // ---------------------------------------------------------------- taking a run

  /** A prefix of the changed rows holds every message up to the revision of its last row: revisions do not repeat. */
  lemma PrefixHasNoGap(st: State, sid: SessionId, from: nat, n: nat, m: MessageId)
    requires MessagesDistinct(st) && m in After(st, sid, from)
    requires n <= |ByRevision(st, After(st, sid, from))|
    requires n == |ByRevision(st, After(st, sid, from))| ||
      (0 < n && ByRevision(st, After(st, sid, from))[n - 1] in st.messages && st.messages[m].revision <= st.messages[ByRevision(st, After(st, sid, from))[n - 1]].revision)
    ensures exists j :: 0 <= j < n && ByRevision(st, After(st, sid, from))[j] == m
  {
    var todo := After(st, sid, from);
    ByRevisionKeepsRows(st, todo);
    var all := ByRevision(st, todo);
    assert m in all;
    forall k | n <= k < |all| ensures all[k] != m {
      assert all[n - 1] in all && all[k] in all;
      assert st.messages[all[n - 1]].revision < st.messages[all[k]].revision;
    }
  }

  /** The chunk of unread changes has no gap: every message changed since the last review up to the chunk's end is in it. */
  lemma ContextCovers(st: State, k: Candidate, p: Prospect)
    requires MessagesOk(st) && MessagesDistinct(st) && CandidateOk(st, k)
    ensures var x := CandidateContext(st, k, p);
      && x.fromRevision == k.reviewedRevision <= x.throughRevision <= st.sessions[k.session].revision
      && (forall m :: m in st.messages && st.messages[m].session == k.session && x.fromRevision < st.messages[m].revision <= x.throughRevision ==>
            Ref(m, st.messages[m].revision) in x.delta)
  {
    hide MessagesOk, MessagesDistinct;
    var todo := After(st, k.session, k.reviewedRevision);
    var all := ByRevision(st, todo);
    ByRevisionKeepsRows(st, todo);
    var rows := Changed(st, k.session, k.reviewedRevision);
    var n := Cut(rows, p.cost, st.sessions[k.session].settings.contextChars, 0, 0);
    var x := CandidateContext(st, k, p);
    assert x.delta == Refs(st, rows[..n]);
    assert forall i :: 0 <= i < n ==> rows[i] == all[i];
    if n < |rows| {
      assert rows[n - 1] in all;
      WithinRevision(st, all[n - 1]);
    }
    forall m | m in st.messages && st.messages[m].session == k.session && x.fromRevision < st.messages[m].revision <= x.throughRevision
      ensures Ref(m, st.messages[m].revision) in x.delta
    {
      PrefixHasNoGap(st, k.session, k.reviewedRevision, n, m);
      var j :| 0 <= j < n && all[j] == m;
      assert x.delta[j] == Ref(m, st.messages[m].revision);
    }
  }

  /** However little fits into a request, its chunk ends later than the last review if the candidate is behind. */
  lemma ContextAdvances(st: State, k: Candidate, p: Prospect)
    requires CandidateOk(st, k) && k.reviewedRevision < st.sessions[k.session].revision
    ensures CandidateContext(st, k, p).throughRevision > k.reviewedRevision
  {
    var todo := After(st, k.session, k.reviewedRevision);
    ByRevisionKeepsRows(st, todo);
    var rows := Changed(st, k.session, k.reviewedRevision);
    var n := Cut(rows, p.cost, st.sessions[k.session].settings.contextChars, 0, 0);
    if n < |rows| { assert rows[n - 1] in ByRevision(st, todo); }
  }

  /** The candidate after one completed review for each of the given requests, while the session stands still. */
  ghost function Caught(st: State, k: Candidate, prospects: seq<Prospect>): Candidate
    requires k.session in st.sessions
    decreases |prospects|
  {
    if prospects == [] then k
    else Caught(st, k.(reviewedRevision := CandidateContext(st, k, prospects[0]).throughRevision), prospects[1..])
  }

  /** A candidate that is behind catches up with a session that stands still after at most as many completed reviews as
      revisions are missing, whatever the costs and limits of the requests. */
  lemma {:induction false} ReviewCatchesUp(st: State, k: Candidate, prospects: seq<Prospect>)
    requires MessagesOk(st) && MessagesDistinct(st) && CandidateOk(st, k) && |prospects| >= st.sessions[k.session].revision - k.reviewedRevision
    ensures Caught(st, k, prospects).reviewedRevision == st.sessions[k.session].revision
    decreases |prospects|
  {
    hide MessagesOk, MessagesDistinct, CandidateContext;
    if prospects != [] {
      ContextCovers(st, k, prospects[0]);
      if k.reviewedRevision < st.sessions[k.session].revision { ContextAdvances(st, k, prospects[0]); }
      ReviewCatchesUp(st, k.(reviewedRevision := CandidateContext(st, k, prospects[0]).throughRevision), prospects[1..]);
    }
  }

  lemma WithinRevision(st: State, m: MessageId)
    requires MessagesOk(st) && m in st.messages
    ensures st.messages[m].session in st.sessions && st.messages[m].revision <= st.sessions[st.messages[m].session].revision
  {
    assert MessageOk(st, m, st.messages[m]);
  }

  lemma NewRunOk(st: State, a: AgentId, kind: RunKind, p: Prospect, epoch: nat, token: Token, now: nat)
    requires Inv(st) && a in st.agents && st.agents[a].enabled && st.sessions[st.agents[a].session].lifecycle == RUNNING
    requires st.workers[st.agents[a].slot] == epoch
    requires kind == Review ==> LiveCandidate(st.candidates, a).Some? && st.candidates[LiveCandidate(st.candidates, a).value].text.Some?
    ensures var r := NewRun(st, a, kind, p, epoch, token, now);
      RunOk(st, r) && Current(st, r) && r.slot == st.agents[a].slot && (r.candidate.Some? ==> Covers(st, r))
  {
    hide RunsOk, OneLiveCandidate, OneRunPerSlot, CountOk, CoverageOk, ReadyOk, RunsFenced, CandidateContext;
    var c := LiveCandidate(st.candidates, a);
    if c.Some? {
      assert CandidateOk(st, st.candidates[c.value]);
      ContextCovers(st, st.candidates[c.value], p);
    }
  }

  lemma StartingKeepsInv(st: State, id: RunId, r: Run)
    requires Inv(st) && id !in st.runs && RunOk(st, r) && Current(st, r) && (r.candidate.Some? ==> Covers(st, r))
    requires r.state == ACTIVE
    requires forall q :: q in st.runs && st.runs[q].state == ACTIVE ==> st.runs[q].slot != r.slot
    ensures Inv(st.(runs := st.runs[id := r]))
  {
    hide AgentsOk, MessagesOk, MessagesDistinct, OneLiveCandidate, CountOk, CandidatesOk;
    var st' := st.(runs := st.runs[id := r]);
    forall q | q in st'.runs ensures RunOk(st', st'.runs[q]) { if q != id { assert RunOk(st, st.runs[q]); } }
    StartingKeepsCoverage(st, id, r);
    StartingKeepsRest(st, id, r);
    forall c | c in st'.candidates && st'.candidates[c].state == READY ensures MayPublish(st', st'.candidates[c]) { assert MayPublish(st, st.candidates[c]); }
    forall q | q in st'.runs && st'.runs[q].state == ACTIVE ensures Current(st', st'.runs[q]) { if q != id { assert Current(st, st.runs[q]); } }
  }

  lemma StartingKeepsRest(st: State, id: RunId, r: Run)
    requires Core(st)
    ensures var st' := st.(runs := st.runs[id := r]);
      AgentsOk(st') && CandidatesOk(st') && MessagesOk(st') && MessagesDistinct(st') && OneLiveCandidate(st') && CountOk(st')
  {
    var st' := st.(runs := st.runs[id := r]);
    forall c | c in st'.candidates ensures CandidateOk(st', st'.candidates[c]) { assert CandidateOk(st, st.candidates[c]); }
    forall m | m in st'.messages ensures MessageOk(st', m, st'.messages[m]) { assert MessageOk(st, m, st.messages[m]); }
    forall s | s in st'.sessions ensures CommittedIn(st', s) == CommittedIn(st, s) {}
    forall c | c in st'.candidates && st'.candidates[c].state == COMMITTED ensures Posted(st', c) { assert Posted(st, c); }
  }

  lemma StartingKeepsCoverage(st: State, id: RunId, r: Run)
    requires CoverageOk(st) && id !in st.runs && (r.candidate.Some? ==> Covers(st, r))
    ensures CoverageOk(st.(runs := st.runs[id := r]))
  {
    var st' := st.(runs := st.runs[id := r]);
    forall q | q in st'.runs && st'.runs[q].candidate.Some? ensures Covers(st', st'.runs[q]) { if q != id { assert Covers(st, st.runs[q]); } }
    forall c, m | c in st'.candidates && m in st'.messages && st'.messages[m].session == st'.candidates[c].session &&
                  st'.candidates[c].decidedAt < st'.messages[m].revision <= st'.candidates[c].reviewedRevision
      ensures Shown(st', c, Ref(m, st'.messages[m].revision))
    {
      ShownStays(st, st', c, Ref(m, st.messages[m].revision));
    }
  }

  lemma DropStaleRunKeepsInv(st: State, slot: Slot, now: nat)
    requires Inv(st)
    ensures var st' := DropStaleRun(st, slot, now);
      && Inv(st') && Linked(st') && st'.runs.Keys == st.runs.Keys && st'.workers == st.workers
      && forall r :: r in st'.runs && st'.runs[r].state == ACTIVE ==> st'.runs[r].slot != slot
  {
    hide AgentsOk, CandidatesOk, RunsOk, MessagesOk, MessagesDistinct, OneLiveCandidate, CountOk, CoverageOk, ReadyOk, RunsFenced, WakeAll;
    InvLinked(st);
    var previous := ActiveRun(st, slot);
    if previous.Some? {
      var sid := st.runs[previous.value].session;
      CancelKeepsInv(st, sid, Some(slot));
      InvLinked(CancelRuns(st, sid, Some(slot)));
      WakeKeepsInv(CancelRuns(st, sid, Some(slot)), map[st.runs[previous.value].agent := OTHER], None, now);
      WakeSettles(CancelRuns(st, sid, Some(slot)), map[st.runs[previous.value].agent := OTHER], None, now);
    }
  }

  lemma GiveUpKeepsInv(st: State, slot: Slot, overflowed: set<AgentId>)
    requires Inv(st)
    ensures Linked(st) && Inv(GiveUp(st, slot, overflowed))
  {
    InvLinked(st);
    AgentFieldsKeepInv(st, GiveUp(st, slot, overflowed).agents);
  }

  lemma KindNeedsText(st: State, a: AgentId, p: Prospect, now: nat)
    requires Linked(st) && a in st.agents && KindFor(st, a, p, now) == Some(Review)
    ensures LiveCandidate(st.candidates, a).Some? && st.candidates[LiveCandidate(st.candidates, a).value].text.Some?
  {
  }

  lemma StartRunKeepsInv(st: State, slot: Slot, epoch: nat, overflowed: set<AgentId>, choice: Option<AgentId>, p: Prospect, id: RunId, token: Token, now: nat)
    requires Inv(st) && Linked(st) && slot in st.workers && st.workers[slot] == epoch
    requires forall r :: r in st.runs && st.runs[r].state == ACTIVE ==> st.runs[r].slot != slot
    ensures var out := StartRun(st, slot, epoch, overflowed, choice, p, id, token, now); out.Ok? ==> Inv(out.state)
  {
    hide Inv, NewRun, KindFor, LiveCandidate;
    var out := StartRun(st, slot, epoch, overflowed, choice, p, id, token, now);
    if out.Ok? && out.state != st {
      var wanted := KindFor(st, choice.value, p, now).value;
      var kind := if wanted == Decide && !p.delivered then Observe else wanted;
      if kind == Review { KindNeedsText(st, choice.value, p, now); }
      NewRunOk(st, choice.value, kind, p, epoch, token, now);
      NewRunIsActive(st, choice.value, kind, p, epoch, token, now);
      StartingKeepsInv(st, id, NewRun(st, choice.value, kind, p, epoch, token, now));
    }
  }

  lemma ClaimKeepsInv(st: State, slot: Slot, epoch: nat, oldReusable: bool, overflowed: set<AgentId>, choice: Option<AgentId>, p: Prospect, id: RunId, token: Token, now: nat)
    requires Inv(st)
    ensures Linked(st)
    ensures var out := Claim(st, slot, epoch, oldReusable, overflowed, choice, p, id, token, now); out.Ok? ==> Inv(out.state)
  {
    hide Inv, StartRun, DropStaleRun;
    InvLinked(st);
    if slot in st.workers && st.workers[slot] == epoch {
      DropStaleRunKeepsInv(st, slot, now);
      GiveUpKeepsInv(DropStaleRun(st, slot, now), slot, overflowed);
      StartRunKeepsInv(GiveUp(DropStaleRun(st, slot, now), slot, overflowed), slot, epoch, overflowed, choice, p, id, token, now);
    }
  }

  lemma NewRunIsActive(st: State, a: AgentId, kind: RunKind, p: Prospect, epoch: nat, token: Token, now: nat)
    requires Linked(st) && a in st.agents
    ensures NewRun(st, a, kind, p, epoch, token, now).state == ACTIVE
  {
  }

  // ---------------------------------------------------------------- returning the result

  /** Run id has just been finished; r is the run as it was when its worker was authorized. */
  ghost predicate JustFinished(st: State, id: RunId, r: Run) {
    && Inv(st) && id in st.runs && st.runs[id] == r.(state := DONE, resultHash := st.runs[id].resultHash)
    && r.state == ACTIVE && RunOk(st, r) && Authorized(st, r)
    && (r.candidate.Some? ==> st.candidates[r.candidate.value].version == r.candidateVersion && Live(st.candidates[r.candidate.value].state))
  }

  predicate Authorized(st: State, r: Run) {
    && r.session in st.sessions && st.sessions[r.session].lifecycle == RUNNING
    && r.agent in st.agents && st.agents[r.agent].enabled && !st.agents[r.agent].retired
  }

  /** A draft or review moves the candidate forward to the revision its run saw, and nothing it skipped stays unread. */
  lemma ReviewedKeepsInv(st: State, id: RunId, r: Run, k': Candidate)
    requires JustFinished(st, id, r) && r.candidate.Some?
    requires var k := st.candidates[r.candidate.value];
      k' == k.(text := k'.text, intent := k'.intent, version := k.version + 1, state := k'.state, reviewedRevision := r.SnapshotRevision(),
               reviewedWake := r.wakeSeq, notBefore := k'.notBefore, reviewDueAt := k'.reviewDueAt)
    requires k'.state == NEEDS_REVIEW || (k'.state == READY && k'.text.Some? && r.SnapshotRevision() == st.sessions[r.session].revision)
    ensures Inv(st.(candidates := st.candidates[r.candidate.value := k']))
  {
    hide AgentsOk, CandidatesOk, RunsOk, MessagesOk, MessagesDistinct, OneLiveCandidate, OneRunPerSlot, CountOk, CoverageOk, RunsFenced, ReadyOk;
    ReviewedKeepsRows(st, id, r, k');
    ReviewedKeepsCoverage(st, id, r, k');
    ReviewedKeepsCount(st, r.candidate.value, k');
    ReviewedKeepsFences(st, id, r, k');
  }

  lemma ReviewedKeepsRows(st: State, id: RunId, r: Run, k': Candidate)
    requires JustFinished(st, id, r) && r.candidate.Some?
    requires var k := st.candidates[r.candidate.value];
      k' == k.(text := k'.text, intent := k'.intent, version := k.version + 1, state := k'.state, reviewedRevision := r.SnapshotRevision(),
               reviewedWake := r.wakeSeq, notBefore := k'.notBefore, reviewDueAt := k'.reviewDueAt)
    requires k'.state == NEEDS_REVIEW || (k'.state == READY && k'.text.Some?)
    ensures var st' := st.(candidates := st.candidates[r.candidate.value := k']);
      AgentsOk(st') && CandidatesOk(st') && RunsOk(st') && MessagesOk(st') && MessagesDistinct(st') && OneRunPerSlot(st')
  {
    hide OneLiveCandidate, CountOk, CoverageOk, RunsFenced, ReadyOk;
    var cid := r.candidate.value;
    var st' := st.(candidates := st.candidates[cid := k']);
    assert CandidateOk(st, st.candidates[cid]);
    forall c | c in st'.candidates ensures CandidateOk(st', st'.candidates[c]) { assert CandidateOk(st, st.candidates[c]); }
    forall q | q in st'.runs ensures RunOk(st', st'.runs[q]) { assert RunOk(st, st.runs[q]); }
    forall m | m in st'.messages ensures MessageOk(st', m, st'.messages[m]) { assert MessageOk(st, m, st.messages[m]); }
  }

  lemma ReviewedKeepsCoverage(st: State, id: RunId, r: Run, k': Candidate)
    requires JustFinished(st, id, r) && r.candidate.Some?
    requires k'.decidedAt == st.candidates[r.candidate.value].decidedAt && k'.reviewedRevision == r.SnapshotRevision()
    requires k'.session == st.candidates[r.candidate.value].session
    ensures CoverageOk(st.(candidates := st.candidates[r.candidate.value := k']))
  {
    hide AgentsOk, CandidatesOk, RunsOk, MessagesOk, MessagesDistinct, OneLiveCandidate, OneRunPerSlot, CountOk, RunsFenced, ReadyOk;
    var cid := r.candidate.value;
    var k := st.candidates[cid];
    var st' := st.(candidates := st.candidates[cid := k']);
    forall q | q in st'.runs && st'.runs[q].candidate.Some? ensures Covers(st', st'.runs[q]) { assert Covers(st, st.runs[q]); }
    SessionOfBound(st, cid, r);
    forall c, m | c in st'.candidates && m in st'.messages && st'.messages[m].session == st'.candidates[c].session &&
                  st'.candidates[c].decidedAt < st'.messages[m].revision <= st'.candidates[c].reviewedRevision
      ensures Shown(st', c, Ref(m, st'.messages[m].revision))
    {
      var ref := Ref(m, st.messages[m].revision);
      if c == cid && k.reviewedRevision < st.messages[m].revision {
        assert Covers(st, st.runs[id]);
        assert ref in st'.runs[id].context.delta;
      } else {
        ShownStays(st, st', c, ref);
      }
    }
  }

  lemma SessionOfBound(st: State, c: CandidateId, r: Run)
    requires CandidatesOk(st) && RunOk(st, r) && r.candidate == Some(c)
    ensures c in st.candidates && st.candidates[c].session == r.session
  {
    assert CandidateOk(st, st.candidates[c]);
  }

  lemma ReviewedKeepsCount(st: State, c: CandidateId, k': Candidate)
    requires Inv(st) && c in st.candidates && Live(st.candidates[c].state) && Live(k'.state)
    requires k'.agent == st.candidates[c].agent
    ensures var st' := st.(candidates := st.candidates[c := k']); CountOk(st') && OneLiveCandidate(st')
  {
    hide AgentsOk, CandidatesOk, RunsOk, MessagesOk, MessagesDistinct, OneRunPerSlot, CoverageOk, RunsFenced, ReadyOk;
    var st' := st.(candidates := st.candidates[c := k']);
    forall s | s in st'.sessions ensures CommittedIn(st', s) == CommittedIn(st, s) {}
    forall d | d in st'.candidates && st'.candidates[d].state == COMMITTED ensures Posted(st', d) { assert Posted(st, d); }
  }

  lemma ReviewedKeepsFences(st: State, id: RunId, r: Run, k': Candidate)
    requires JustFinished(st, id, r) && r.candidate.Some?
    requires k'.agent == r.agent && k'.session == st.candidates[r.candidate.value].session && k'.reviewedRevision == r.SnapshotRevision()
    requires k'.state == READY ==> r.SnapshotRevision() == st.sessions[r.session].revision
    ensures var st' := st.(candidates := st.candidates[r.candidate.value := k']); ReadyOk(st') && RunsFenced(st')
  {
    hide AgentsOk, CandidatesOk, RunsOk, MessagesOk, MessagesDistinct, OneRunPerSlot, CoverageOk, OneLiveCandidate, CountOk;
    var st' := st.(candidates := st.candidates[r.candidate.value := k']);
    SessionOfBound(st, r.candidate.value, r);
    forall c | c in st'.candidates && st'.candidates[c].state == READY ensures MayPublish(st', st'.candidates[c]) {
      if c != r.candidate.value { assert MayPublish(st, st.candidates[c]); }
    }
    forall q | q in st'.runs && st'.runs[q].state == ACTIVE ensures Current(st', st'.runs[q]) { assert Current(st, st.runs[q]); }
  }

  lemma MoveOwnKeepsInv(st: State, a: AgentId, from: set<CandidateState>, to: CandidateState)
    requires Inv(st) && from <= LIVE && to != READY && to != COMMITTED
    ensures Inv(MoveOwn(st, a, from, to)) && MoveOwn(st, a, from, to).agents == st.agents
  {
    hide Inv;
    var st' := MoveOwn(st, a, from, to);
    forall c | c in st.candidates ensures OnlyMoved(st.candidates[c], st'.candidates[c]) {}
    DemotionKeepsInv(st, st'.candidates, st.runs);
  }

  lemma DroppedKeepsInv(st: State, c: CandidateId)
    requires Inv(st) && c in st.candidates && Live(st.candidates[c].state)
    ensures Inv(st.(candidates := st.candidates[c := st.candidates[c].(state := DROPPED)]))
  {
    hide Inv;
    DemotionKeepsInv(st, st.candidates[c := st.candidates[c].(state := DROPPED)], st.runs);
  }

  lemma DeferAgentKeepsInv(st: State, a: AgentId, kind: DeferralKind, afterMs: nat, now: nat)
    requires Inv(st) && a in st.agents
    ensures var out := DeferAgent(st, a, kind, afterMs, now); out.Ok? ==> Inv(out.state)
  {
    hide Inv;
    var until := now + afterMs;
    var agents := st.agents[a := st.agents[a].(deferral := Some(Deferral(kind, until)), dueAt := Some(until))];
    AgentFieldsKeepInv(st, agents);
    MoveOwnKeepsInv(st.(agents := agents), a, LIVE, DEFERRED);
  }

  lemma SpeakKeepsInv(st: State, id: RunId, r: Run, c: CandidateId, k: Candidate)
    requires JustFinished(st, id, r) && c !in st.candidates && LiveCandidate(st.candidates, r.agent).None?
    requires k.agent == r.agent && k.session == r.session && k.state == DRAFTING && k.text.None?
    requires k.decidedAt == k.reviewedRevision == r.SnapshotRevision() && k.reviewedWake == r.wakeSeq
    ensures Inv(st.(candidates := st.candidates[c := k]))
  {
    hide AgentsOk, CandidatesOk, RunsOk, MessagesOk, MessagesDistinct, OneLiveCandidate, OneRunPerSlot, CountOk, CoverageOk, RunsFenced, ReadyOk;
    SpeakKeepsRows(st, id, r, c, k);
    SpeakKeepsRest(st, id, r, c, k);
  }

  lemma SpeakKeepsRows(st: State, id: RunId, r: Run, c: CandidateId, k: Candidate)
    requires JustFinished(st, id, r) && c !in st.candidates
    requires k.agent == r.agent && k.session == r.session && k.state == DRAFTING && k.text.None?
    requires k.decidedAt == k.reviewedRevision == r.SnapshotRevision() && k.reviewedWake == r.wakeSeq
    ensures var st' := st.(candidates := st.candidates[c := k]);
      AgentsOk(st') && CandidatesOk(st') && RunsOk(st') && MessagesOk(st') && MessagesDistinct(st') && OneRunPerSlot(st')
  {
    hide OneLiveCandidate, CountOk, CoverageOk, RunsFenced, ReadyOk;
    var st' := st.(candidates := st.candidates[c := k]);
    forall d | d in st'.candidates ensures CandidateOk(st', st'.candidates[d]) { if d != c { assert CandidateOk(st, st.candidates[d]); } }
    forall q | q in st'.runs ensures RunOk(st', st'.runs[q]) { assert RunOk(st, st.runs[q]); }
    forall m | m in st'.messages ensures MessageOk(st', m, st'.messages[m]) { assert MessageOk(st, m, st.messages[m]); }
  }

  lemma SpeakKeepsRest(st: State, id: RunId, r: Run, c: CandidateId, k: Candidate)
    requires JustFinished(st, id, r) && c !in st.candidates && LiveCandidate(st.candidates, r.agent).None?
    requires k.agent == r.agent && k.session == r.session && k.state == DRAFTING
    requires k.decidedAt == k.reviewedRevision
    ensures var st' := st.(candidates := st.candidates[c := k]);
      OneLiveCandidate(st') && CountOk(st') && CoverageOk(st') && ReadyOk(st') && RunsFenced(st')
  {
    hide AgentsOk, CandidatesOk, RunsOk, MessagesOk, MessagesDistinct, OneRunPerSlot, CountOk, CoverageOk;
    var st' := st.(candidates := st.candidates[c := k]);
    forall d | d in st.candidates && Live(st.candidates[d].state) ensures st.candidates[d].agent != r.agent {}
    DraftSparesCount(st, c, k);
    DraftSparesCoverage(st, c, k);
    forall d | d in st'.candidates && st'.candidates[d].state == READY ensures MayPublish(st', st'.candidates[d]) { assert MayPublish(st, st.candidates[d]); }
    forall q | q in st'.runs && st'.runs[q].state == ACTIVE ensures Current(st', st'.runs[q]) { assert Current(st, st.runs[q]); }
  }

  lemma DraftSparesCount(st: State, c: CandidateId, k: Candidate)
    requires CountOk(st) && c !in st.candidates && k.state == DRAFTING
    ensures CountOk(st.(candidates := st.candidates[c := k]))
  {
    var st' := st.(candidates := st.candidates[c := k]);
    forall s | s in st'.sessions ensures CommittedIn(st', s) == CommittedIn(st, s) {}
    forall d | d in st'.candidates && st'.candidates[d].state == COMMITTED ensures Posted(st', d) { assert Posted(st, d); }
  }

  lemma DraftSparesCoverage(st: State, c: CandidateId, k: Candidate)
    requires CoverageOk(st) && c !in st.candidates && k.decidedAt == k.reviewedRevision
    ensures CoverageOk(st.(candidates := st.candidates[c := k]))
  {
    var st' := st.(candidates := st.candidates[c := k]);
    forall q | q in st'.runs && st'.runs[q].candidate.Some? ensures Covers(st', st'.runs[q]) { assert Covers(st, st.runs[q]); }
    forall d, m | d in st'.candidates && m in st'.messages && st'.messages[m].session == st'.candidates[d].session &&
                  st'.candidates[d].decidedAt < st'.messages[m].revision <= st'.candidates[d].reviewedRevision
      ensures Shown(st', d, Ref(m, st'.messages[m].revision))
    {
      ShownStays(st, st', d, Ref(m, st.messages[m].revision));
    }
  }

  lemma ApplyOutputKeepsInv(st: State, id: RunId, r: Run, out: Output, v: Verdict, now: nat)
    requires JustFinished(st, id, r) && Fits(r.kind, out)
    ensures var o := ApplyOutput(st, r, out, v, now); o.Ok? ==> Inv(o.state)
  {
    hide Inv, DeferAgent, IntentProblem, LiveCandidate, MoveOwn;
    var o := ApplyOutput(st, r, out, v, now);
    MoveOwnKeepsInv(st, r.agent, {READY}, NEEDS_REVIEW);
    if out.Wait? { DeferAgentKeepsInv(st, r.agent, out.kind, out.afterMs, now); }
    if o.Ok? && out.Speak? { SpeakKeepsInv(st, id, r, v.newId, o.state.candidates[v.newId]); }
    if o.Ok? && r.candidate.Some? && (r.kind == Draft || r.kind == Review) {
      var c := r.candidate.value;
      TextOfReviewed(st, r);
      if out.Withdraw? { DroppedKeepsInv(st, c); }
      if out.Drafted? || out.Keep? || out.Rewrite? {
        ReviewedKeepsInv(st, id, r, o.state.candidates[c]);
      }
    }
  }

  lemma TextOfReviewed(st: State, r: Run)
    requires RunOk(st, r) && r.candidate.Some? && r.state == ACTIVE && st.candidates[r.candidate.value].version == r.candidateVersion
    ensures st.candidates[r.candidate.value].agent == r.agent && (r.kind == Review ==> st.candidates[r.candidate.value].text.Some?)
  {
  }

  lemma FinishedIsJustFinished(st: State, id: RunId, digest: nat)
    requires Inv(st) && id in st.runs && st.runs[id].state == ACTIVE
    requires forall c :: st.runs[id].candidate == Some(c) ==> c in st.candidates && st.candidates[c].version == st.runs[id].candidateVersion && Live(st.candidates[c].state)
    ensures JustFinished(Finished(st, id, digest), id, st.runs[id])
  {
    hide CandidatesOk, MessagesOk, MessagesDistinct, OneLiveCandidate, OneRunPerSlot, CountOk, CoverageOk, ReadyOk;
    assert RunOk(st, st.runs[id]) && Current(st, st.runs[id]);
    DemotionKeepsInv(st, st.candidates, Finished(st, id, digest).runs);
  }

  lemma CompleteRunKeepsInv(st: State, slot: Slot, epoch: nat, id: RunId, token: Token, out: Output, v: Verdict, now: nat)
    requires Inv(st)
    ensures var o := CompleteRun(st, slot, epoch, id, token, out, v, now); o.Ok? ==> Inv(o.state)
  {
    hide Inv, ApplyOutput, Settled, MoveOwn, Fits;
    var o := CompleteRun(st, slot, epoch, id, token, out, v, now);
    if o.Ok? && st.runs[id].state != DONE {
      var r := st.runs[id];
      FinishedIsJustFinished(st, id, v.digest);
      var done := Finished(st, id, v.digest);
      ApplyOutputKeepsInv(done, id, r, out, v, now);
      var applied := ApplyOutput(done, r, out, v, now).state;
      MoveOwnKeepsInv(applied, r.agent, {READY}, NEEDS_REVIEW);
      var reviewed := if v.privateChanged && !Foreground(r.kind) then MoveOwn(applied, r.agent, {READY}, NEEDS_REVIEW) else applied;
      if r.agent in reviewed.agents {
        SettledIsOwner(reviewed, r, now);
        AgentFieldsKeepInv(reviewed, reviewed.agents[r.agent := Settled(reviewed, r, now)]);
      }
    }
  }

  lemma SettledIsOwner(st: State, r: Run, now: nat)
    requires r.agent in st.agents
    ensures var a' := Settled(st, r, now); SameOwner(st.agents[r.agent], a') && a'.enabled == st.agents[r.agent].enabled && a'.retired == st.agents[r.agent].retired
  {
  }
}
