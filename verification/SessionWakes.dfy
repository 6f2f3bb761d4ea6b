/** Which steps can leave a candidate READY although its owner has been woken since: exactly one kind. */
module SessionWakes {
  import opened Wrappers
  import opened Domain
  import opened SessionTypes
  import opened SessionSteps
  import opened SessionInvariant
  import opened SessionGrowth
  import opened SessionHistory
  import opened SessionTables

  /** Every ready candidate was reviewed in the present wake of its owner. */
  ghost predicate InWake(st: State) {
    forall c :: c in st.candidates && st.candidates[c].state == READY ==> Awake(st, st.candidates[c])
  }

  predicate Awake(st: State, k: Candidate) { k.agent in st.agents && k.reviewedWake == st.agents[k.agent].wakeSeq }

  /** Whatever is ready afterwards was ready before, and its owner has not been woken. */
  ghost predicate Spares(st: State, st': State) {
    forall c :: c in st'.candidates && st'.candidates[c].state == READY ==>
      c in st.candidates && st.candidates[c] == st'.candidates[c] && Undisturbed(st, st', st'.candidates[c].agent)
  }

  predicate Undisturbed(st: State, st': State, a: AgentId) { a in st.agents ==> a in st'.agents && st'.agents[a].wakeSeq == st.agents[a].wakeSeq }

  lemma SparesKeepsWake(st: State, st': State)
    requires InWake(st) && Spares(st, st')
    ensures InWake(st')
  {
    forall c | c in st'.candidates && st'.candidates[c].state == READY ensures Awake(st', st'.candidates[c]) {
      assert Undisturbed(st, st', st'.candidates[c].agent) && Awake(st, st.candidates[c]);
    }
  }

  lemma SparesTransitive(st: State, mid: State, st': State)
    requires Spares(st, mid) && Spares(mid, st')
    ensures Spares(st, st')
  {
    forall c | c in st'.candidates && st'.candidates[c].state == READY
      ensures c in st.candidates && st.candidates[c] == st'.candidates[c] && Undisturbed(st, st', st'.candidates[c].agent)
    {
      assert Undisturbed(mid, st', st'.candidates[c].agent) && Undisturbed(st, mid, st'.candidates[c].agent);
    }
  }

  lemma SparesRefl(st: State)
    ensures Spares(st, st)
  {
  }

  lemma WakeSpares(st: State, who: map<AgentId, Trigger>, author: Option<AgentId>, now: nat)
    requires Linked(st)
    ensures Spares(st, WakeAll(st, who, author, now))
  {
    hide WakeResumes, Raised;
  }

  lemma SparesThenWakes(st: State, mid: State, who: map<AgentId, Trigger>, author: Option<AgentId>, now: nat)
    requires Spares(st, mid) && Linked(mid)
    ensures Spares(st, WakeAll(mid, who, author, now))
  {
    hide Spares, WakeAll;
    WakeSpares(mid, who, author, now);
    SparesTransitive(st, mid, WakeAll(mid, who, author, now));
  }

  /** A new row for a session; its runs stop and some of its candidates move away from READY. */
  lemma FenceSpares(st: State, sid: SessionId, s: Session, slot: Option<Slot>, from: set<CandidateState>, to: CandidateState)
    requires to != READY
    ensures Spares(st, MoveCandidates(CancelRuns(st.(sessions := st.sessions[sid := s]), sid, slot), sid, from, to))
    ensures Spares(st, CancelRuns(st.(sessions := st.sessions[sid := s]), sid, slot))
  {
  }

  // ---------------------------------------------------------------- operator steps

  lemma LifecycleSpares(st: State, sid: SessionId, action: Action, budgetOpen: bool, maxRunning: nat, now: nat)
    requires Linked(st)
    ensures var out := Lifecycled(st, sid, action, budgetOpen, maxRunning, now); out.Ok? ==> Spares(st, out.state)
  {
    hide Spares, WakeAll, RunningElsewhere;
    if sid in st.sessions {
      var s := st.sessions[sid];
      var running := s.(lifecycle := RUNNING, budgetPaused := false, userPaused := false, epoch := s.epoch + 1);
      FenceSpares(st, sid, running, None, {READY}, NEEDS_REVIEW);
      FenceSpares(st, sid, s.(lifecycle := PAUSED, userPaused := true, epoch := s.epoch + 1), None, {READY}, NEEDS_REVIEW);
      FenceSpares(st, sid, s.(lifecycle := ENDED, userPaused := false, epoch := s.epoch + 1), None, LIVE, DROPPED);
      var fenced := MoveCandidates(CancelRuns(st.(sessions := st.sessions[sid := running]), sid, None), sid, {READY}, NEEDS_REVIEW);
      SparesThenWakes(st, fenced, Everyone(Members(fenced, sid), RECOVERY), None, now);
    }
  }

  lemma RenewAutomaticSpares(st: State, sid: SessionId, windowOver: bool, maxRunning: nat, now: nat)
    requires Linked(st)
    ensures var out := RenewAutomatic(st, sid, windowOver, maxRunning, now); out.Ok? ==> Spares(st, out.state)
  {
    hide Spares, WakeAll, RunningElsewhere;
    SparesRefl(st);
    if sid in st.sessions {
      var s := st.sessions[sid];
      var running := s.(lifecycle := RUNNING, budgetPaused := false, userPaused := false, windowPostStart := s.botCount, epoch := s.epoch + 1);
      FenceSpares(st, sid, running, None, {READY}, NEEDS_REVIEW);
      var fenced := MoveCandidates(CancelRuns(st.(sessions := st.sessions[sid := running]), sid, None), sid, {READY}, NEEDS_REVIEW);
      assert fenced == MoveCandidates(CancelRuns(st, sid, None).(sessions := st.sessions[sid := running]), sid, {READY}, NEEDS_REVIEW);
      SparesThenWakes(st, fenced, Everyone(Members(fenced, sid), OTHER), None, now);
    }
  }

  lemma StillSpares(st: State, cmd: Command)
    requires Linked(st) && (cmd.Configure? || cmd.Renew? || cmd.Stop?)
    ensures Spares(st, Next(st, cmd))
  {
    hide Spares, MoveCandidates, CancelRuns;
    SparesRefl(st);
    if cmd.sid in st.sessions {
      var s := st.sessions[cmd.sid];
      FenceSpares(st, cmd.sid, s.(lifecycle := PAUSED, budgetPaused := true, userPaused := false, epoch := s.epoch + 1), None, {READY}, NEEDS_REVIEW);
      if cmd.Configure? { FenceSpares(st, cmd.sid, s.(settings := cmd.settings, epoch := s.epoch + 1), None, {}, DROPPED); }
      FenceSpares(st, cmd.sid, s.(windowPostStart := s.botCount, budgetPaused := false, userPaused := false, epoch := s.epoch + 1), None, {}, DROPPED);
    }
  }

  lemma RosterSpares(st: State, cmd: Command)
    requires Linked(st) && (cmd.Create? || cmd.Enable? || cmd.Beat?)
    ensures Spares(st, Next(st, cmd))
  {
  }

  lemma MembershipSpares(st: State, sid: SessionId, expectedEpoch: nat, kept: map<AgentId, Selection>, joined: map<AgentId, Selection>)
    requires Linked(st)
    ensures var out := ApplyMembership(st, sid, expectedEpoch, kept, joined); out.Ok? ==> Spares(st, out.state)
  {
    SparesRefl(st);
    if ApplyMembership(st, sid, expectedEpoch, kept, joined).Ok? { RegroupedSpares(st, sid, kept, joined); }
  }

  lemma RegroupedSpares(st: State, sid: SessionId, kept: map<AgentId, Selection>, joined: map<AgentId, Selection>)
    requires sid in st.sessions && joined.Keys !! st.agents.Keys
    ensures Spares(st, MoveCandidates(CancelRuns(Regrouped(st, sid, kept, joined), sid, None), sid, LIVE, DROPPED))
  {
  }

  lemma RetrySpares(st: State, sid: SessionId, a: AgentId, now: nat)
    requires Linked(st)
    ensures var out := RetryAgent(st, sid, a, now); out.Ok? ==> Spares(st, out.state)
  {
    hide WakeAll;
    if RetryAgent(st, sid, a, now).Ok? {
      var reset := CancelRuns(st, sid, Some(st.agents[a].slot)).(agents := st.agents[a := st.agents[a].(errorCount := 0, retryAt := None)]);
      SparesThenWakes(st, reset, map[a := RECOVERY], None, now);
    }
  }

  lemma RecoverSpares(st: State, resume: bool, now: nat)
    requires Linked(st)
    ensures Spares(st, Recover(st, resume, now))
  {
    hide WakeAll;
    var fenced := Regenerated(st, resume);
    assert Spares(st, fenced);
    SparesThenWakes(st, fenced, Everyone(RunningAgents(fenced), RECOVERY), None, now);
  }

  // ---------------------------------------------------------------- messages and sources

  lemma AppendSpares(st: State, sid: SessionId, id: MessageId, author: Option<AgentId>, text: Text, intent: Intent, candidate: Option<CandidateId>, now: nat)
    requires Linked(st) && sid in st.sessions && IntentProblem(st, sid, author, intent).Pass?
    ensures Spares(st, Append(st, sid, id, author, text, intent, candidate, now))
  {
    hide WakeAll, IntentProblem, NewMessage, Members;
    var posted := Inserted(st, sid, id, author, text, intent, candidate, now);
    assert Spares(st, posted);
    InsertedLinks(st, sid, id, author, text, intent, candidate, now);
    SparesThenWakes(st, posted, Audience(st, sid, author, intent.addressedTo), author, now);
  }

  lemma PeopleSpare(st: State, cmd: Command)
    requires Linked(st) && (cmd.Say? || cmd.Change? || cmd.Source?)
    ensures Spares(st, Next(st, cmd))
  {
    hide WakeAll, IntentProblem, Append, Spares, Edited, SourceFenced, Members, Told;
    SparesRefl(st);
    if Step(st, cmd).Ok? {
      if cmd.Say? { AppendSpares(st, cmd.sid, cmd.id, None, cmd.text, cmd.intent, None, cmd.now); }
      if cmd.Change? {
        EditedSpares(st, cmd.sid, cmd.id, cmd.newText);
        SparesThenWakes(st, Edited(st, cmd.sid, cmd.id, cmd.newText), Everyone(Members(st, cmd.sid), EDIT), None, cmd.now);
      }
      if cmd.Source? {
        var told := Told(st, cmd.sid, cmd.revision, cmd.was, cmd.can);
        SourceSpares(st, cmd.sid, cmd.revision, told, cmd.was, cmd.can);
        SparesThenWakes(st, SourceFenced(st, cmd.sid, cmd.revision, told, cmd.was, cmd.can), Everyone(told, OTHER), None, cmd.now);
      }
    }
  }

  lemma EditedSpares(st: State, sid: SessionId, id: MessageId, text: Option<Text>)
    requires Linked(st) && sid in st.sessions && id in st.messages
    ensures Spares(st, Edited(st, sid, id, text)) && Linked(Edited(st, sid, id, text))
  {
  }

  lemma SourceSpares(st: State, sid: SessionId, revision: bool, done: set<AgentId>, was: set<AgentId>, can: set<AgentId>)
    requires Linked(st)
    ensures Spares(st, SourceFenced(st, sid, revision, done, was, can)) && Linked(SourceFenced(st, sid, revision, done, was, can))
  {
  }

  // ---------------------------------------------------------------- workers and the clock

  lemma RegisterSpares(st: State, slot: Slot, now: nat)
    requires Linked(st)
    ensures var out := RegisterWorker(st, slot, now); out.Ok? ==> Spares(st, out.state)
  {
    hide WakeAll;
    if slot in st.workers {
      assert Spares(st, Reregistered(st, slot));
      SparesThenWakes(st, Reregistered(st, slot), Everyone(InRunning(st, Owners(st, slot)), RECOVERY), None, now);
    }
  }

  lemma CancelSpares(st: State, sid: SessionId, slot: Option<Slot>, a: AgentId, now: nat)
    requires Linked(st)
    ensures Linked(CancelRuns(st, sid, slot)) && Spares(st, Wake(CancelRuns(st, sid, slot), a, OTHER, now))
  {
    hide WakeAll;
    SparesThenWakes(st, CancelRuns(st, sid, slot), map[a := OTHER], None, now);
  }

  lemma TakeSpares(st: State, cmd: Command)
    requires Linked(st) && cmd.Take?
    ensures Spares(st, Next(st, cmd))
  {
    hide Spares, GiveUp, KindFor, NewRun, Claimable, Wake, CancelRuns;
    SparesRefl(st);
    var previous := ActiveRun(st, cmd.slot);
    if previous.Some? { CancelSpares(st, st.runs[previous.value].session, Some(cmd.slot), st.runs[previous.value].agent, cmd.now); }
    var ready := DropStaleRun(st, cmd.slot, cmd.now);
    var mid := GiveUp(ready, cmd.slot, cmd.overflowed);
    GiveUpSpares(ready, cmd.slot, cmd.overflowed);
    SparesTransitive(st, ready, mid);
    RunsDoNotDisturb(st, mid, Next(st, cmd));
  }

  lemma GiveUpSpares(st: State, slot: Slot, overflowed: set<AgentId>)
    requires Linked(st)
    ensures Spares(st, GiveUp(st, slot, overflowed))
  {
  }

  lemma RunsDoNotDisturb(st: State, mid: State, st': State)
    requires Spares(st, mid)
    ensures st'.candidates == mid.candidates && st'.agents == mid.agents ==> Spares(st, st')
  {
    if st'.candidates == mid.candidates && st'.agents == mid.agents { SparesTransitive(st, mid, st'); }
  }

  lemma ExpireSpares(st: State, now: nat)
    requires Linked(st)
    ensures Spares(st, ExpireLeases(st, now))
  {
    hide WakeAll;
    assert Spares(st, Lapsed(st, Expired(st, now)));
    SparesThenWakes(st, Lapsed(st, Expired(st, now)), Everyone(LapsedOwners(st, Expired(st, now)), RECOVERY), None, now);
  }

  lemma StaleReadySpares(st: State, a: AgentId, now: nat)
    requires Linked(st) && a in st.agents
    ensures Spares(st, StaleReady(st, a, now)) && Linked(StaleReady(st, a, now)) && StaleReady(st, a, now).agents == st.agents
  {
  }

  lemma TickSpares(st: State, a: AgentId, agenda: bool, idle: bool, now: nat)
    requires Linked(st)
    ensures var out := TickAgent(st, a, agenda, idle, now); out.Ok? ==> Spares(st, out.state)
  {
    hide Spares, WakeAll, StaleReady;
    SparesRefl(st);
    if a in st.agents {
      WakeLinked(st, map[a := AGENDA], None, now);
      SparesThenWakes(st, st, map[a := AGENDA], None, now);
      var one := if agenda then Wake(st, a, AGENDA, now) else st;
      WakeLinked(one, map[a := OTHER], None, now);
      SparesThenWakes(st, one, map[a := OTHER], None, now);
      var two := if one.agents[a].deferral.Some? && one.agents[a].deferral.value.until <= now then Wake(one, a, OTHER, now) else one;
      StaleReadySpares(two, a, now);
      SparesTransitive(st, two, StaleReady(two, a, now));
      SparesThenWakes(st, StaleReady(two, a, now), map[a := OTHER], None, now);
    }
  }

  // ---------------------------------------------------------------- publication

  lemma MarkSpares(st: State, mid: State, sid: SessionId, c: CandidateId, to: CandidateState)
    requires Spares(st, mid) && to != READY && c in mid.candidates && sid in mid.sessions
    ensures Spares(st, mid.(candidates := mid.candidates[c := mid.candidates[c].(state := to)]))
    ensures Spares(st, mid.(candidates := mid.candidates[c := mid.candidates[c].(state := to)],
                            sessions := mid.sessions[sid := mid.sessions[sid].(botCount := mid.sessions[sid].botCount + 1)]))
  {
  }

  lemma CommitSpares(st: State, sid: SessionId, budgetExceeded: bool, bindingCurrent: bool, id: MessageId, now: nat)
    requires Linked(st)
    ensures var out := CommitOne(st, sid, budgetExceeded, bindingCurrent, id, now); out.Ok? ==> Spares(st, out.state)
  {
    hide Spares, Publish, PauseForLimit, IntentProblem, Round;
    SparesRefl(st);
    var out := CommitOne(st, sid, budgetExceeded, bindingCurrent, id, now);
    if out.Ok? && st.sessions[sid].lifecycle == RUNNING {
      LimitSpares(st, sid);
      var pick := Pick(st, sid, now);
      if pick.Some? {
        var c := pick.value;
        MarkSpares(st, st, sid, c, NEEDS_REVIEW);
        if st.candidates[c].text.Some? && IntentProblem(st, sid, Some(st.candidates[c].agent), st.candidates[c].intent).Pass? {
          PublishSpares(st, sid, c, id, now);
          PublishedSession(st, sid, c, id, now);
          LimitSpares(Publish(st, sid, c, id, now), sid);
          SparesTransitive(st, Publish(st, sid, c, id, now), PauseForLimit(Publish(st, sid, c, id, now), sid));
        }
      }
    }
  }

  lemma LimitSpares(st: State, sid: SessionId)
    requires sid in st.sessions
    ensures Spares(st, PauseForLimit(st, sid))
  {
    hide Spares, MoveCandidates, CancelRuns;
    var s := st.sessions[sid];
    FenceSpares(st, sid, s.(lifecycle := PAUSED, budgetPaused := true, userPaused := false, epoch := s.epoch + 1), None, {READY}, NEEDS_REVIEW);
  }

  lemma PublishSpares(st: State, sid: SessionId, c: CandidateId, id: MessageId, now: nat)
    requires Linked(st) && sid in st.sessions && c in st.candidates && st.candidates[c].text.Some?
    requires IntentProblem(st, sid, Some(st.candidates[c].agent), st.candidates[c].intent).Pass?
    ensures Spares(st, Publish(st, sid, c, id, now))
  {
    hide Spares, Append, IntentProblem;
    var k := st.candidates[c];
    AppendSpares(st, sid, id, Some(k.agent), k.text.value, k.intent, Some(c), now);
    AppendKeepsKeys(st, sid, id, Some(k.agent), k.text.value, k.intent, Some(c), now);
    MarkSpares(st, Append(st, sid, id, Some(k.agent), k.text.value, k.intent, Some(c), now), sid, c, COMMITTED);
  }

  // ---------------------------------------------------------------- results

  /** A result makes a candidate ready only in the wake in which its run began, if that is still the present one. */
  lemma OutputKeepsWake(st: State, r: SessionTypes.Run, out: Output, v: Verdict, now: nat)
    requires InWake(st) && r.session in st.sessions && r.agent in st.agents
    requires r.candidate.Some? ==> r.candidate.value in st.candidates && st.candidates[r.candidate.value].agent == r.agent
    ensures var o := ApplyOutput(st, r, out, v, now); o.Ok? ==> InWake(o.state)
  {
    hide IntentProblem, LiveCandidate, InWake, MoveOwn, DeferAgent;
    var o := ApplyOutput(st, r, out, v, now);
    if o.Ok? && r.kind == Memory { OwnKeepsWake(st, r.agent); }
    else if o.Ok? && out.Wait? && (r.kind == Decide || r.kind == Review) { DeferralKeepsWake(st, r.agent, out.kind, out.afterMs, now); }
    else if o.Ok? && (r.kind == Draft || r.kind == Review) { CandidateKeepsWake(st, r.candidate.value, o.state.candidates[r.candidate.value]); }
    else if o.Ok? && out.Speak? && r.kind == Decide { CandidateKeepsWake(st, v.newId, o.state.candidates[v.newId]); }
  }

  lemma CandidateKeepsWake(st: State, c: CandidateId, k: Candidate)
    requires InWake(st) && (k.state == READY ==> Awake(st, k))
    ensures InWake(st.(candidates := st.candidates[c := k]))
  {
  }

  lemma OwnKeepsWake(st: State, a: AgentId)
    requires InWake(st)
    ensures InWake(MoveOwn(st, a, {READY}, NEEDS_REVIEW))
  {
  }

  lemma DeferralKeepsWake(st: State, a: AgentId, kind: DeferralKind, afterMs: nat, now: nat)
    requires InWake(st) && a in st.agents
    ensures DeferAgent(st, a, kind, afterMs, now).Ok? ==> InWake(DeferAgent(st, a, kind, afterMs, now).state)
  {
  }

  lemma ReturnKeepsWake(st: State, cmd: Command)
    requires Linked(st) && InWake(st) && cmd.Return?
    ensures InWake(Next(st, cmd))
  {
    hide ApplyOutput, Fits, LiveCandidate;
    if Step(st, cmd).Ok? && st.runs[cmd.run].state != DONE {
      var r := st.runs[cmd.run];
      OutputKeepsWake(Finished(st, cmd.run, cmd.verdict.digest), r, cmd.out, cmd.verdict, cmd.now);
    }
  }

  // ---------------------------------------------------------------- failures

  /** A reported failure that counts against the owner, who has a candidate ready. */
  ghost predicate LeavesBehind(st: State, cmd: Command) {
    && cmd.GiveBack? && cmd.reusable && Authorize(st, cmd.slot, cmd.epoch, cmd.run, cmd.token, cmd.now).Pass?
    && exists c :: c in st.candidates && st.candidates[c].state == READY && st.candidates[c].agent == st.runs[cmd.run].agent
  }

  lemma FailureAndWake(st: State, cmd: Command)
    requires Linked(st) && InWake(st) && cmd.GiveBack?
    ensures InWake(Next(st, cmd)) <==> !LeavesBehind(st, cmd)
  {
    hide WakeAll, CancelRuns, Wake, RetryDelay, Spares;
    var st' := Next(st, cmd);
    if cmd.run in st.runs {
      var r := st.runs[cmd.run];
      if Authorize(st, cmd.slot, cmd.epoch, cmd.run, cmd.token, cmd.now).Pass? {
        if !cmd.reusable {
          CancelSpares(st, r.session, Some(cmd.slot), r.agent, cmd.now);
          SparesKeepsWake(st, st');
        } else if c :| c in st.candidates && st.candidates[c].state == READY && st.candidates[c].agent == r.agent {
          assert Awake(st, st.candidates[c]) && !Awake(st', st'.candidates[c]);
        } else {
          forall c | c in st'.candidates && st'.candidates[c].state == READY ensures Awake(st', st'.candidates[c]) { assert Awake(st, st.candidates[c]); }
        }
      }
    }
  }

  lemma OthersSpare(st: State, cmd: Command)
    requires Linked(st) && !cmd.Return? && !cmd.GiveBack?
    ensures Spares(st, Next(st, cmd))
  {
    hide Spares, Linked, CreateSession, Lifecycled, UpdateSettings, RenewBudget, SetAgentEnabled, ApplyMembership, RetryAgent, Recover, HumanMessage, ChangeMessage,
         ApplySource, RegisterWorker, Heartbeat, Claim, CompleteRun, FailRun, ExpireLeases, RenewAutomatic, TickAgent, BudgetStop, CommitOne;
    SparesRefl(st);
    match cmd
    case Create(_, _, _) => RosterSpares(st, cmd);
    case Act(sid, action, budgetOpen, maxRunning, now) => LifecycleSpares(st, sid, action, budgetOpen, maxRunning, now);
    case Configure(_, _) => StillSpares(st, cmd);
    case Renew(_) => StillSpares(st, cmd);
    case Enable(_, _, _) => RosterSpares(st, cmd);
    case Regroup(sid, expectedEpoch, kept, joined) => MembershipSpares(st, sid, expectedEpoch, kept, joined);
    case Retry(sid, a, now) => RetrySpares(st, sid, a, now);
    case Restart(resume, now) => RecoverSpares(st, resume, now);
    case Say(_, _, _, _, _) => PeopleSpare(st, cmd);
    case Change(_, _, _, _) => PeopleSpare(st, cmd);
    case Source(_, _, _, _, _) => PeopleSpare(st, cmd);
    case Register(slot, now) => RegisterSpares(st, slot, now);
    case Beat(_, _, _, _, _) => RosterSpares(st, cmd);
    case Take(_, _, _, _, _, _, _, _, _) => TakeSpares(st, cmd);
    case Expire(now) => ExpireSpares(st, now);
    case AutoRenew(sid, windowOver, maxRunning, now) => RenewAutomaticSpares(st, sid, windowOver, maxRunning, now);
    case Tick(a, agenda, idle, now) => TickSpares(st, a, agenda, idle, now);
    case Stop(_) => StillSpares(st, cmd);
    case Commit(sid, budgetExceeded, bindingCurrent, id, now) => CommitSpares(st, sid, budgetExceeded, bindingCurrent, id, now);
  }

  /** READY means reviewed in the present wake after every step from a state where it did, except after one kind of step: a
      counted failure of an owner that has a candidate ready. */
  lemma {:induction false} OnlyFailuresLeaveBehind(slots: set<Slot>, cmds: seq<Command>, cmd: Command)
    ensures var st, st' := Reached(slots, cmds), Reached(slots, cmds + [cmd]);
      InWake(st) ==> (InWake(st') <==> !LeavesBehind(st, cmd))
  {
    hide Inv, Linked, Reached, Next, InWake, LeavesBehind;
    ReachedNext(slots, cmds, cmd);
    var st := Reached(slots, cmds);
    if InWake(st) {
      if cmd.GiveBack? { FailureAndWake(st, cmd); }
      else if cmd.Return? { ReturnKeepsWake(st, cmd); OnlyGiveBack(st, cmd); }
      else { OthersSpare(st, cmd); SparesKeepsWake(st, Next(st, cmd)); OnlyGiveBack(st, cmd); }
    }
  }

  lemma OnlyGiveBack(st: State, cmd: Command)
    ensures LeavesBehind(st, cmd) ==> cmd.GiveBack?
  {
  }
}
