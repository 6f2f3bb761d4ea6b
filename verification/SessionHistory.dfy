/** Runs of the session service: any interleaving of commands of operators, people, workers and the clock. */
module SessionHistory {
  import opened Wrappers
  import opened Domain
  import opened SessionTypes
  import opened SessionSteps
  import opened SessionInvariant
  import opened SessionFences
  import opened SessionPublishing
  import opened SessionResults
  import opened SessionGrowth

  /** One transaction. The arguments that no caller supplies (budget verdicts, fresh ids, timers) are arbitrary. */
  datatype Command =
    | Create(sid: SessionId, settings: Settings, members: map<AgentId, Slot>)
    | Act(sid: SessionId, action: Action, budgetOpen: bool, maxRunning: nat, now: nat)
    | Configure(sid: SessionId, settings: Settings)
    | Renew(sid: SessionId)
    | Enable(sid: SessionId, agent: AgentId, enabled: bool)
    | Regroup(sid: SessionId, expectedEpoch: nat, kept: map<AgentId, Selection>, joined: map<AgentId, Selection>)
    | Retry(sid: SessionId, agent: AgentId, now: nat)
    | Restart(resume: bool, now: nat)
    | Say(sid: SessionId, id: MessageId, text: Text, intent: Intent, now: nat)
    | Change(sid: SessionId, id: MessageId, newText: Option<Text>, now: nat)
    | Source(sid: SessionId, revision: bool, was: set<AgentId>, can: set<AgentId>, now: nat)
    | Register(slot: Slot, now: nat)
    | Beat(slot: Slot, epoch: nat, run: RunId, token: Token, now: nat)
    | Take(slot: Slot, epoch: nat, oldReusable: bool, overflowed: set<AgentId>, choice: Option<AgentId>, prospect: Prospect, run: RunId, token: Token, now: nat)
    | Return(slot: Slot, epoch: nat, run: RunId, token: Token, out: Output, verdict: Verdict, now: nat)
    | GiveBack(slot: Slot, epoch: nat, run: RunId, token: Token, reusable: bool, providerRetryAt: nat, now: nat)
    | Expire(now: nat)
    | AutoRenew(sid: SessionId, windowOver: bool, maxRunning: nat, now: nat)
    | Tick(agent: AgentId, agenda: bool, idle: bool, now: nat)
    | Stop(sid: SessionId)
    | Commit(sid: SessionId, budgetExceeded: bool, bindingCurrent: bool, id: MessageId, now: nat)

  ghost function Step(st: State, cmd: Command): Outcome
    requires Linked(st)
  {
    match cmd
    case Create(sid, settings, members) => CreateSession(st, sid, settings, members)
    case Act(sid, action, budgetOpen, maxRunning, now) => Lifecycled(st, sid, action, budgetOpen, maxRunning, now)
    case Configure(sid, settings) => UpdateSettings(st, sid, settings)
    case Renew(sid) => RenewBudget(st, sid)
    case Enable(sid, a, enabled) => SetAgentEnabled(st, sid, a, enabled)
    case Regroup(sid, expectedEpoch, kept, joined) => ApplyMembership(st, sid, expectedEpoch, kept, joined)
    case Retry(sid, a, now) => RetryAgent(st, sid, a, now)
    case Restart(resume, now) => Ok(Recover(st, resume, now))
    case Say(sid, id, text, intent, now) => HumanMessage(st, sid, id, text, intent, now)
    case Change(sid, id, text, now) => ChangeMessage(st, sid, id, text, now)
    case Source(sid, revision, was, can, now) => ApplySource(st, sid, revision, was, can, now)
    case Register(slot, now) => RegisterWorker(st, slot, now)
    case Beat(slot, epoch, id, token, now) => Heartbeat(st, slot, epoch, id, token, now)
    case Take(slot, epoch, oldReusable, overflowed, choice, p, id, token, now) => Claim(st, slot, epoch, oldReusable, overflowed, choice, p, id, token, now)
    case Return(slot, epoch, id, token, out, v, now) => CompleteRun(st, slot, epoch, id, token, out, v, now)
    case GiveBack(slot, epoch, id, token, reusable, retryAt, now) => FailRun(st, slot, epoch, id, token, reusable, retryAt, now)
    case Expire(now) => Ok(ExpireLeases(st, now))
    case AutoRenew(sid, windowOver, maxRunning, now) => RenewAutomatic(st, sid, windowOver, maxRunning, now)
    case Tick(a, agenda, idle, now) => TickAgent(st, a, agenda, idle, now)
    case Stop(sid) => BudgetStop(st, sid)
    case Commit(sid, budgetExceeded, bindingCurrent, id, now) => CommitOne(st, sid, budgetExceeded, bindingCurrent, id, now)
  }

  /** A rejected transaction is rolled back. */
  ghost function Next(st: State, cmd: Command): State
    requires Linked(st)
  {
    var out := Step(st, cmd);
    if out.Ok? then out.state else st
  }

  lemma StillStepsKeepInv(st: State, cmd: Command)
    requires Inv(st) && Linked(st) && (cmd.Configure? || cmd.Renew? || cmd.Stop?)
    ensures Inv(Next(st, cmd))
  {
    hide Inv, CancelRuns, PauseForLimit;
    if cmd.sid in st.sessions {
      var s := st.sessions[cmd.sid];
      PauseForLimitKeepsInv(st, cmd.sid);
      if Still(s) && cmd.Configure? { StillCommandKeepsInv(st, cmd.sid, s.(settings := cmd.settings, epoch := s.epoch + 1)); }
      if Still(s) && cmd.Renew? {
        StillCommandKeepsInv(st, cmd.sid, s.(windowPostStart := s.botCount, budgetPaused := false, userPaused := false, epoch := s.epoch + 1));
      }
    }
  }

  lemma StepKeepsInv(st: State, cmd: Command)
    requires Inv(st) && Linked(st)
    ensures Inv(Next(st, cmd))
  {
    hide Inv, CreateSession, Lifecycled, UpdateSettings, RenewBudget, SetAgentEnabled, ApplyMembership, RetryAgent, Recover, HumanMessage, ChangeMessage,
         ApplySource, RegisterWorker, Heartbeat, Claim, CompleteRun, FailRun, ExpireLeases, RenewAutomatic, TickAgent, BudgetStop, CommitOne, Linked;
    match cmd
    case Create(sid, settings, members) => CreateSessionKeepsInv(st, sid, settings, members);
    case Act(sid, action, budgetOpen, maxRunning, now) => LifecycleKeepsInv(st, sid, action, budgetOpen, maxRunning, now);
    case Configure(_, _) => StillStepsKeepInv(st, cmd);
    case Renew(_) => StillStepsKeepInv(st, cmd);
    case Enable(sid, a, enabled) => SetAgentEnabledKeepsInv(st, sid, a, enabled);
    case Regroup(sid, expectedEpoch, kept, joined) => ApplyMembershipKeepsInv(st, sid, expectedEpoch, kept, joined);
    case Retry(sid, a, now) => RetryAgentKeepsInv(st, sid, a, now);
    case Restart(resume, now) => RecoverKeepsInv(st, resume, now);
    case Say(sid, id, text, intent, now) => HumanMessageKeepsInv(st, sid, id, text, intent, now);
    case Change(sid, id, text, now) => ChangeMessageKeepsInv(st, sid, id, text, now);
    case Source(sid, revision, was, can, now) => ApplySourceKeepsInv(st, sid, revision, was, can, now);
    case Register(slot, now) => RegisterWorkerKeepsInv(st, slot, now);
    case Beat(slot, epoch, id, token, now) => HeartbeatKeepsInv(st, slot, epoch, id, token, now);
    case Take(slot, epoch, oldReusable, overflowed, choice, p, id, token, now) => ClaimKeepsInv(st, slot, epoch, oldReusable, overflowed, choice, p, id, token, now);
    case Return(slot, epoch, id, token, out, v, now) => CompleteRunKeepsInv(st, slot, epoch, id, token, out, v, now);
    case GiveBack(slot, epoch, id, token, reusable, retryAt, now) => FailRunKeepsInv(st, slot, epoch, id, token, reusable, retryAt, now);
    case Expire(now) => ExpireLeasesKeepsInv(st, now);
    case AutoRenew(sid, windowOver, maxRunning, now) => RenewAutomaticKeepsInv(st, sid, windowOver, maxRunning, now);
    case Tick(a, agenda, idle, now) => TickAgentKeepsInv(st, a, agenda, idle, now);
    case Stop(_) => StillStepsKeepInv(st, cmd);
    case Commit(sid, budgetExceeded, bindingCurrent, id, now) => CommitOneKeepsInv(st, sid, budgetExceeded, bindingCurrent, id, now);
  }

  lemma SmallStepsGrow(st: State, cmd: Command)
    requires Linked(st) && (cmd.Configure? || cmd.Renew? || cmd.Stop? || cmd.Beat? || cmd.Create?)
    ensures Grows(st, Next(st, cmd))
  {
    hide CancelRuns, PauseForLimit, Grows;
    GrowsRefl(st);
    if cmd.Create? { CreateGrows(st, cmd.sid, cmd.settings, cmd.members); }
    if cmd.Beat? { BeatGrows(st, cmd.slot, cmd.epoch, cmd.run, cmd.token, cmd.now); }
    if (cmd.Configure? || cmd.Renew? || cmd.Stop?) && cmd.sid in st.sessions {
      var s := st.sessions[cmd.sid];
      if s.lifecycle == RUNNING { PauseForLimitGrows(st, cmd.sid); }
      if cmd.Configure? { StillCommandGrows(st, cmd.sid, s.(settings := cmd.settings, epoch := s.epoch + 1)); }
      if cmd.Renew? { StillCommandGrows(st, cmd.sid, s.(windowPostStart := s.botCount, budgetPaused := false, userPaused := false, epoch := s.epoch + 1)); }
    }
  }

  lemma CreateGrows(st: State, sid: SessionId, settings: Settings, members: map<AgentId, Slot>)
    ensures var out := CreateSession(st, sid, settings, members); out.Ok? ==> Grows(st, out.state)
  {
  }

  lemma BeatGrows(st: State, slot: Slot, epoch: nat, id: RunId, token: Token, now: nat)
    ensures var out := Heartbeat(st, slot, epoch, id, token, now); out.Ok? ==> Grows(st, out.state)
  {
  }

  lemma StepGrows(st: State, cmd: Command)
    requires Inv(st) && Linked(st)
    ensures Grows(st, Next(st, cmd))
  {
    hide AgentsOk, CandidatesOk, MessagesDistinct, OneLiveCandidate, OneRunPerSlot, CountOk, CoverageOk, ReadyOk, RunsFenced, RunsOk, MessagesOk, Grows,
         CreateSession, Lifecycled, UpdateSettings, RenewBudget, SetAgentEnabled, ApplyMembership, RetryAgent, Recover, HumanMessage, ChangeMessage,
         ApplySource, RegisterWorker, Heartbeat, Claim, CompleteRun, FailRun, ExpireLeases, RenewAutomatic, TickAgent, BudgetStop, CommitOne, Linked;
    GrowsRefl(st);
    match cmd
    case Create(_, _, _) => SmallStepsGrow(st, cmd);
    case Act(sid, action, budgetOpen, maxRunning, now) => LifecycleGrows(st, sid, action, budgetOpen, maxRunning, now);
    case Configure(_, _) => SmallStepsGrow(st, cmd);
    case Renew(_) => SmallStepsGrow(st, cmd);
    case Enable(sid, a, enabled) => SetAgentEnabledGrows(st, sid, a, enabled);
    case Regroup(sid, expectedEpoch, kept, joined) => ApplyMembershipGrows(st, sid, expectedEpoch, kept, joined);
    case Retry(sid, a, now) => RetryAgentGrows(st, sid, a, now);
    case Restart(resume, now) => RecoverGrows(st, resume, now);
    case Say(sid, id, text, intent, now) => HumanMessageGrows(st, sid, id, text, intent, now);
    case Change(sid, id, text, now) => ChangeMessageGrows(st, sid, id, text, now);
    case Source(sid, revision, was, can, now) => ApplySourceGrows(st, sid, revision, was, can, now);
    case Register(slot, now) => RegisterWorkerGrows(st, slot, now);
    case Beat(_, _, _, _, _) => SmallStepsGrow(st, cmd);
    case Take(slot, epoch, oldReusable, overflowed, choice, p, id, token, now) => ClaimGrows(st, slot, epoch, oldReusable, overflowed, choice, p, id, token, now);
    case Return(slot, epoch, id, token, out, v, now) => CompleteRunGrows(st, slot, epoch, id, token, out, v, now);
    case GiveBack(slot, epoch, id, token, reusable, retryAt, now) => FailRunGrows(st, slot, epoch, id, token, reusable, retryAt, now);
    case Expire(now) => ExpireLeasesGrows(st, now);
    case AutoRenew(sid, windowOver, maxRunning, now) => RenewAutomaticGrows(st, sid, windowOver, maxRunning, now);
    case Tick(a, agenda, idle, now) => TickAgentGrows(st, a, agenda, idle, now);
    case Stop(_) => SmallStepsGrow(st, cmd);
    case Commit(sid, budgetExceeded, bindingCurrent, id, now) => CommitOneGrows(st, sid, budgetExceeded, bindingCurrent, id, now);
  }

  // ---------------------------------------------------------------- runs

  /** A fresh store knows its worker slots and nothing else. */
  function Initial(slots: set<Slot>): State {
    State(map[], map[], map[], map[], map[], map w | w in slots :: 0)
  }

  ghost function Run(st: State, cmds: seq<Command>): State
    requires Inv(st)
    decreases |cmds|
  {
    if cmds == [] then st
    else
      InvLinked(st);
      StepKeepsInv(st, cmds[0]);
      Run(Next(st, cmds[0]), cmds[1..])
  }

  lemma InitialInv(slots: set<Slot>)
    ensures Inv(Initial(slots))
  {
    var st := Initial(slots);
    assert CommittedIn(st, 0) == {};
  }

  lemma {:induction false} RunKeepsInv(st: State, cmds: seq<Command>)
    requires Inv(st)
    ensures Inv(Run(st, cmds))
    decreases |cmds|
  {
    hide Inv;
    if cmds != [] {
      InvLinked(st);
      StepKeepsInv(st, cmds[0]);
      RunKeepsInv(Next(st, cmds[0]), cmds[1..]);
    }
  }

  /** Whatever transactions follow, nothing that Grows lists is taken back. */
  lemma {:induction false} RunGrows(st: State, cmds: seq<Command>)
    requires Inv(st)
    ensures Grows(st, Run(st, cmds))
    decreases |cmds|
  {
    hide Inv, Grows;
    if cmds == [] {
      GrowsRefl(st);
    } else {
      InvLinked(st);
      StepKeepsInv(st, cmds[0]);
      StepGrows(st, cmds[0]);
      var mid := Next(st, cmds[0]);
      RunGrows(mid, cmds[1..]);
      GrowsTransitive(st, mid, Run(mid, cmds[1..]));
    }
  }

  ghost function Reached(slots: set<Slot>, cmds: seq<Command>): State {
    InitialInv(slots);
    Run(Initial(slots), cmds)
  }

  /** Every state that any sequence of transactions reaches from a fresh store satisfies the invariant. */
  lemma {:induction false} ReachedInv(slots: set<Slot>, cmds: seq<Command>)
    ensures Inv(Reached(slots, cmds))
  {
    InitialInv(slots);
    RunKeepsInv(Initial(slots), cmds);
  }

  lemma {:induction false} RunContinues(st: State, before: seq<Command>, after: seq<Command>)
    requires Inv(st)
    ensures Inv(Run(st, before)) && Run(st, before + after) == Run(Run(st, before), after)
    decreases |before|
  {
    hide Inv;
    if before == [] {
      assert before + after == after;
    } else {
      InvLinked(st);
      StepKeepsInv(st, before[0]);
      RunContinues(Next(st, before[0]), before[1..], after);
      assert (before + after)[1..] == before[1..] + after;
    }
  }

  lemma {:induction false} ReachedLonger(slots: set<Slot>, before: seq<Command>, after: seq<Command>)
    ensures Inv(Reached(slots, before)) && Reached(slots, before + after) == Run(Reached(slots, before), after)
  {
    hide Inv;
    InitialInv(slots);
    RunContinues(Initial(slots), before, after);
  }

  lemma {:induction false} ReachedNext(slots: set<Slot>, cmds: seq<Command>, cmd: Command)
    ensures var st := Reached(slots, cmds); Inv(st) && Linked(st) && Reached(slots, cmds + [cmd]) == Next(st, cmd)
  {
    hide Inv, Next;
    ReachedLonger(slots, cmds, [cmd]);
    InvLinked(Reached(slots, cmds));
    StepKeepsInv(Reached(slots, cmds), cmd);
    assert [cmd][1..] == [];
  }

  // ---------------------------------------------------------------- publication fencing

  function Bots(st: State, sid: SessionId): set<MessageId> {
    set m | m in st.messages && st.messages[m].session == sid && st.messages[m].author.Some?
  }

  /** Ready candidates stand at the present revision; each published message stands right behind its author's review;
      and the counter of a session is the number of its published messages. */
  lemma {:induction false} PublicationFencing(slots: set<Slot>, cmds: seq<Command>)
    ensures var st := Reached(slots, cmds);
      && (forall c :: c in st.candidates && st.candidates[c].state == READY ==> MayPublish(st, st.candidates[c]))
      && (forall m :: m in st.messages && st.messages[m].author.Some? ==>
            st.messages[m].candidate.Some? && st.messages[m].candidate.value in st.candidates &&
            PublishedAs(st.messages[m], st.candidates[st.messages[m].candidate.value]))
      && (forall s :: s in st.sessions ==> st.sessions[s].botCount == |CommittedIn(st, s)| == |Bots(st, s)|)
  {
    hide AgentsOk, CandidatesOk, RunsOk, OneLiveCandidate, OneRunPerSlot, CoverageOk, RunsFenced, Reached;
    ReachedInv(slots, cmds);
    var st := Reached(slots, cmds);
    forall m | m in st.messages && st.messages[m].author.Some?
      ensures st.messages[m].candidate.Some? && st.messages[m].candidate.value in st.candidates && PublishedAs(st.messages[m], st.candidates[st.messages[m].candidate.value])
    {
      assert MessageOk(st, m, st.messages[m]);
    }
    forall s | s in st.sessions ensures |CommittedIn(st, s)| == |Bots(st, s)| { EachPostedOnce(st, s); }
  }

  /** Published candidates and bot messages of a session correspond one to one. */
  lemma {:induction false} EachPostedOnce(st: State, sid: SessionId)
    requires MessagesOk(st) && MessagesDistinct(st) && CountOk(st)
    ensures |CommittedIn(st, sid)| == |Bots(st, sid)|
  {
    hide MessagesDistinct, MessagesOk, CountOk;
    var image := map m | m in Bots(st, sid) && st.messages[m].candidate.Some? :: st.messages[m].candidate.value;
    forall m | m in Bots(st, sid) ensures m in image && image[m] in CommittedIn(st, sid) { BotIsCommitted(st, m); }
    forall c | c in CommittedIn(st, sid) ensures exists m :: m in image && image[m] == c { CommittedIsPosted(st, sid, c); }
    forall m, n | m in image && n in image && m != n ensures image[m] != image[n] { DifferentPosts(st, m, n); }
    assert image.Keys == Bots(st, sid);
    SameSize(image, CommittedIn(st, sid));
  }

  lemma BotIsCommitted(st: State, m: MessageId)
    requires MessagesOk(st) && m in st.messages && st.messages[m].author.Some?
    ensures st.messages[m].candidate.Some? && st.messages[m].candidate.value in CommittedIn(st, st.messages[m].session)
  {
    assert MessageOk(st, m, st.messages[m]);
  }

  lemma CommittedIsPosted(st: State, sid: SessionId, c: CandidateId)
    requires MessagesOk(st) && CountOk(st) && c in CommittedIn(st, sid)
    ensures exists m :: m in Bots(st, sid) && st.messages[m].candidate == Some(c)
  {
    assert Posted(st, c);
    var m :| m in st.messages && st.messages[m].candidate == Some(c);
    assert MessageOk(st, m, st.messages[m]);
    assert m in Bots(st, sid);
  }

  lemma DifferentPosts(st: State, m: MessageId, n: MessageId)
    requires MessagesDistinct(st) && m in st.messages && n in st.messages && m != n && st.messages[m].session == st.messages[n].session
    requires st.messages[m].candidate.Some? && st.messages[n].candidate.Some?
    ensures st.messages[m].candidate.value != st.messages[n].candidate.value
  {
  }

  lemma {:induction false} SameSize(f: map<nat, nat>, to: set<nat>)
    requires forall m :: m in f ==> f[m] in to
    requires forall c :: c in to ==> exists m :: m in f && f[m] == c
    requires forall m, n :: m in f && n in f && m != n ==> f[m] != f[n]
    ensures |f.Keys| == |to|
    decreases |to|
  {
    if to == {} {
      assert f.Keys == {};
    } else {
      var c :| c in to;
      var m :| m in f && f[m] == c;
      var g := map k | k in f && k != m :: f[k];
      assert g.Keys == f.Keys - {m};
      forall d | d in to - {c} ensures exists k :: k in g && g[k] == d { var k :| k in f && f[k] == d; assert k in g; }
      SameSize(g, to - {c});
    }
  }

  // ---------------------------------------------------------------- nothing unread behind a publication

  /** Candidate c becomes message id of session sid in this step. */
  predicate Publishes(st: State, st': State, sid: SessionId, c: CandidateId, id: MessageId) {
    && id in st'.messages && id !in st.messages && st'.messages[id].session == sid && st'.messages[id].candidate == Some(c)
  }

  /** Whoever publishes has reviewed the session as it stands, in its present wake, and completed runs of this very
      candidate have shown it every message that appeared or changed since the run that decided to speak. */
  lemma {:induction false} NothingUnread(slots: set<Slot>, cmds: seq<Command>, cmd: Command, sid: SessionId, c: CandidateId, id: MessageId)
    ensures var st, st' := Reached(slots, cmds), Reached(slots, cmds + [cmd]);
      Publishes(st, st', sid, c, id) ==>
        && cmd.Commit? && !cmd.budgetExceeded && cmd.bindingCurrent
        && c in st.candidates && st.candidates[c].state == READY && st.candidates[c].session == sid
        && sid in st.sessions && st.sessions[sid].lifecycle == RUNNING && PostsLeft(st.sessions[sid])
        && (var k := st.candidates[c];
            && k.agent in st.agents && st.agents[k.agent].enabled && !st.agents[k.agent].retired
            && k.reviewedWake == st.agents[k.agent].wakeSeq && k.reviewedRevision == st.sessions[sid].revision
            && st'.messages[id].revision == st.sessions[sid].revision + 1 && Some(st'.messages[id].text) == k.text
            && forall m :: m in st.messages && st.messages[m].session == sid && st.messages[m].revision > k.decidedAt ==>
                 Shown(st, c, Ref(m, st.messages[m].revision)))
  {
    hide Reached, Inv, Linked, Next, Shown;
    ReachedNext(slots, cmds, cmd);
    var st := Reached(slots, cmds);
    if Publishes(st, Next(st, cmd), sid, c, id) { PublisherHasReviewed(st, cmd, sid, c, id); }
  }

  lemma PublisherHasReviewed(st: State, cmd: Command, sid: SessionId, c: CandidateId, id: MessageId)
    requires Inv(st) && Linked(st) && Publishes(st, Next(st, cmd), sid, c, id)
    ensures cmd.Commit? && c in st.candidates && st.candidates[c].state == READY && st.candidates[c].session == sid
    ensures var k := st.candidates[c];
      && k.agent in st.agents && st.agents[k.agent].enabled && !st.agents[k.agent].retired && k.reviewedWake == st.agents[k.agent].wakeSeq
      && sid in st.sessions && st.sessions[sid].lifecycle == RUNNING && k.reviewedRevision == st.sessions[sid].revision
      && Next(st, cmd).messages[id].revision == st.sessions[sid].revision + 1
      && Some(Next(st, cmd).messages[id].text) == k.text
      && cmd.budgetExceeded == false && cmd.bindingCurrent && PostsLeft(st.sessions[sid])
    ensures forall m :: m in st.messages && st.messages[m].session == sid && st.messages[m].revision > st.candidates[c].decidedAt ==>
      Shown(st, c, Ref(m, st.messages[m].revision))
  {
    hide AgentsOk, CandidatesOk, RunsOk, MessagesOk, MessagesDistinct, OneLiveCandidate, OneRunPerSlot, CountOk, RunsFenced, Step, Round, Publishable;
    OnlyCommitPublishes(st, cmd, id);
    CommitPublishes(st, cmd, sid, c, id);
    assert MayPublish(st, st.candidates[c]);
    forall m | m in st.messages && st.messages[m].session == sid && st.messages[m].revision > st.candidates[c].decidedAt
      ensures Shown(st, c, Ref(m, st.messages[m].revision))
    {
      WithinRevision(st, m);
    }
  }

  lemma OnlyCommitPublishes(st: State, cmd: Command, id: MessageId)
    requires Linked(st) && id !in st.messages && id in Next(st, cmd).messages && Next(st, cmd).messages[id].candidate.Some?
    ensures cmd.Commit?
  {
    hide Step, Linked;
    if !cmd.Commit? { OthersPublishNothing(st, cmd, id); }
  }

  lemma OthersPublishNothing(st: State, cmd: Command, id: MessageId)
    requires Linked(st) && !cmd.Commit?
    ensures id in Next(st, cmd).messages && id !in st.messages ==> Next(st, cmd).messages[id].candidate.None?
  {
    hide Next;
    if cmd.Take? { TakeKeepsMessages(st, cmd); }
    else if cmd.Return? { ReturnKeepsMessages(st, cmd); }
    else if cmd.GiveBack? || cmd.Beat? || cmd.Register? { WorkerStepsKeepMessages(st, cmd); }
    else if cmd.Tick? { TickKeepsMessages(st, cmd); }
    else if cmd.Expire? || cmd.AutoRenew? || cmd.Stop? { ClockStepsKeepMessages(st, cmd); }
    else if cmd.Say? || cmd.Change? { PeopleSpeakForThemselves(st, cmd, id); }
    else if cmd.Enable? || cmd.Regroup? || cmd.Retry? || cmd.Restart? { RosterStepsKeepMessages(st, cmd); }
    else { OperatorStepsKeepMessages(st, cmd); }
  }

  lemma TakeKeepsMessages(st: State, cmd: Command)
    requires Linked(st) && cmd.Take?
    ensures Next(st, cmd).messages == st.messages
  {
    hide KindFor, NewRun, Claimable, WokenAgent, WokenCandidate, WakeResumes;
  }

  lemma ReturnKeepsMessages(st: State, cmd: Command)
    requires Linked(st) && cmd.Return?
    ensures Next(st, cmd).messages == st.messages
  {
    hide ApplyOutput, Settled, Fits;
    var r := cmd.run;
    if r in st.runs && st.runs[r].state != DONE && Authorize(st, cmd.slot, cmd.epoch, r, cmd.token, cmd.now).Pass? && Next(st, cmd) != st {
      ApplyOutputKeepsMessages(Finished(st, r, cmd.verdict.digest), st.runs[r], cmd.out, cmd.verdict, cmd.now);
    }
  }

  lemma ApplyOutputKeepsMessages(st: State, r: SessionTypes.Run, out: Output, v: Verdict, now: nat)
    requires r.session in st.sessions && r.agent in st.agents && (r.candidate.Some? ==> r.candidate.value in st.candidates)
    ensures var o := ApplyOutput(st, r, out, v, now); o.Ok? ==> o.state.messages == st.messages && o.state.sessions == st.sessions
  {
    hide IntentProblem, UpToDate, LiveCandidate;
  }

  lemma WorkerStepsKeepMessages(st: State, cmd: Command)
    requires Linked(st) && (cmd.GiveBack? || cmd.Beat? || cmd.Register?)
    ensures Next(st, cmd).messages == st.messages
  {
    hide WokenAgent, WokenCandidate, WakeResumes;
  }

  lemma ClockStepsKeepMessages(st: State, cmd: Command)
    requires Linked(st) && (cmd.Expire? || cmd.AutoRenew? || cmd.Stop?)
    ensures Next(st, cmd).messages == st.messages
  {
    hide WokenAgent, WokenCandidate, WakeResumes, Members;
  }

  lemma TickKeepsMessages(st: State, cmd: Command)
    requires Linked(st) && cmd.Tick?
    ensures Next(st, cmd).messages == st.messages && Next(st, cmd).sessions == st.sessions
  {
    hide WakeAll, StaleReady, Settles, Busy;
    var a, now := cmd.agent, cmd.now;
    if a in st.agents {
      WakeSettles(st, map[a := AGENDA], None, now);
      WakeLinked(st, map[a := AGENDA], None, now);
      var one := if cmd.agenda then Wake(st, a, AGENDA, now) else st;
      WakeSettles(one, map[a := OTHER], None, now);
      WakeLinked(one, map[a := OTHER], None, now);
      var two := if one.agents[a].deferral.Some? && one.agents[a].deferral.value.until <= now then Wake(one, a, OTHER, now) else one;
      StaleKeepsMessages(two, a, now);
      WakeSettles(StaleReady(two, a, now), map[a := OTHER], None, now);
    }
  }

  lemma StaleKeepsMessages(st: State, a: AgentId, now: nat)
    requires Linked(st) && a in st.agents
    ensures StaleReady(st, a, now).messages == st.messages && StaleReady(st, a, now).sessions == st.sessions && Linked(StaleReady(st, a, now))
  {
  }

  lemma OperatorStepsKeepMessages(st: State, cmd: Command)
    requires Linked(st) && (cmd.Create? || cmd.Act? || cmd.Configure? || cmd.Renew? || cmd.Source?)
    ensures Next(st, cmd).messages == st.messages
  {
    hide WokenAgent, WokenCandidate, WakeResumes, Members, SourceMove, Lifecycled;
    if cmd.Act? { LifecycleKeepsMessages(st, cmd.sid, cmd.action, cmd.budgetOpen, cmd.maxRunning, cmd.now); }
  }

  lemma LifecycleKeepsMessages(st: State, sid: SessionId, action: Action, budgetOpen: bool, maxRunning: nat, now: nat)
    requires Linked(st)
    ensures var out := Lifecycled(st, sid, action, budgetOpen, maxRunning, now); out.Ok? ==> out.state.messages == st.messages
  {
    hide WokenAgent, WokenCandidate, WakeResumes, Members, RunningElsewhere;
  }

  lemma RosterStepsKeepMessages(st: State, cmd: Command)
    requires Linked(st) && (cmd.Enable? || cmd.Regroup? || cmd.Retry? || cmd.Restart?)
    ensures Next(st, cmd).messages == st.messages
  {
    hide WokenAgent, WokenCandidate, WakeResumes, Members, Regrouped, Regenerated;
    if cmd.Regroup? && cmd.sid in st.sessions { RegroupedKeepsMessages(st, cmd.sid, cmd.kept, cmd.joined); }
    if cmd.Restart? { RegeneratedKeepsMessages(st, cmd.resume); }
  }

  lemma RegroupedKeepsMessages(st: State, sid: SessionId, kept: map<AgentId, Selection>, joined: map<AgentId, Selection>)
    requires sid in st.sessions
    ensures Regrouped(st, sid, kept, joined).messages == st.messages
  {
  }

  lemma RegeneratedKeepsMessages(st: State, resume: bool)
    ensures Regenerated(st, resume).messages == st.messages
  {
  }

  lemma PeopleSpeakForThemselves(st: State, cmd: Command, id: MessageId)
    requires Linked(st) && (cmd.Say? || cmd.Change?)
    ensures id in Next(st, cmd).messages && id !in st.messages ==> Next(st, cmd).messages[id].candidate.None?
  {
    hide WokenAgent, WokenCandidate, WakeResumes, Members, IntentProblem;
  }

  /** What a commit step that adds a message has checked. */
  lemma CommitPublishes(st: State, cmd: Command, sid: SessionId, c: CandidateId, id: MessageId)
    requires CandidatesOk(st) && Linked(st) && cmd.Commit? && Publishes(st, Next(st, cmd), sid, c, id)
    ensures cmd.sid == sid && sid in st.sessions && c in st.candidates && st.candidates[c].state == READY && st.candidates[c].session == sid && st.candidates[c].agent in st.agents
    ensures Pick(st, sid, cmd.now) == Some(c)
    ensures var k := st.candidates[c];
      && k.reviewedWake == st.agents[k.agent].wakeSeq
      && Next(st, cmd).messages[id].revision == st.sessions[sid].revision + 1
      && Some(Next(st, cmd).messages[id].text) == k.text
      && !cmd.budgetExceeded && cmd.bindingCurrent && PostsLeft(st.sessions[sid])
  {
    hide CandidatesOk, Publish, PauseForLimit, IntentProblem, Round, Latest;
    PauseKeepsMessages(st, cmd.sid);
    var d := Pick(st, cmd.sid, cmd.now).value;
    assert st.candidates[d].agent in st.agents;
    PublishedSession(st, cmd.sid, d, cmd.id, cmd.now);
    PauseKeepsMessages(Publish(st, cmd.sid, d, cmd.id, cmd.now), cmd.sid);
  }

  lemma PauseKeepsMessages(st: State, sid: SessionId)
    requires sid in st.sessions
    ensures PauseForLimit(st, sid).messages == st.messages
  {
  }

  /** At any later time the same holds of every message that has not changed since the publication. */
  lemma {:induction false} NothingUnreadEver(slots: set<Slot>, cmds: seq<Command>, id: MessageId, x: MessageId)
    ensures var st := Reached(slots, cmds);
      id in st.messages && st.messages[id].candidate.Some? && !st.messages[id].deleted ==>
        var c := st.messages[id].candidate.value;
        c in st.candidates &&
        (x in st.messages && st.messages[x].session == st.messages[id].session && st.candidates[c].decidedAt < st.messages[x].revision < st.messages[id].revision ==>
           Shown(st, c, Ref(x, st.messages[x].revision)))
  {
    hide AgentsOk, CandidatesOk, RunsOk, MessagesDistinct, OneLiveCandidate, OneRunPerSlot, CountOk, RunsFenced, Reached;
    ReachedInv(slots, cmds);
    if id in Reached(slots, cmds).messages { assert MessageOk(Reached(slots, cmds), id, Reached(slots, cmds).messages[id]); }
  }

  // ---------------------------------------------------------------- run fencing

  /** Live runs belong to the present generation of their worker and of a running session; a slot has one at most, and so does an owner. */
  lemma {:induction false} LiveRunsAreCurrent(slots: set<Slot>, cmds: seq<Command>)
    ensures var st := Reached(slots, cmds);
      && (forall r :: r in st.runs && st.runs[r].state == ACTIVE ==> Current(st, st.runs[r]))
      && (forall r, q :: r in st.runs && q in st.runs && st.runs[r].state == ACTIVE && st.runs[q].state == ACTIVE
                         && (st.runs[r].slot == st.runs[q].slot || st.runs[r].agent == st.runs[q].agent)
            ==> r == q)
  {
    hide AgentsOk, CandidatesOk, MessagesOk, MessagesDistinct, OneLiveCandidate, CountOk, CoverageOk, ReadyOk, Reached;
    ReachedInv(slots, cmds);
    var st := Reached(slots, cmds);
    forall r, q | r in st.runs && q in st.runs && st.runs[r].state == ACTIVE && st.runs[q].state == ACTIVE &&
                  (st.runs[r].slot == st.runs[q].slot || st.runs[r].agent == st.runs[q].agent)
      ensures r == q
    {
      assert RunOk(st, st.runs[r]) && RunOk(st, st.runs[q]);
    }
  }

  predicate Names(cmd: Command, id: RunId) { (cmd.Beat? || cmd.Return? || cmd.GiveBack?) && cmd.run == id }

  lemma StoppedRunIsInert(st: State, cmd: Command, id: RunId)
    requires Linked(st) && Names(cmd, id) && id in st.runs && st.runs[id].state != ACTIVE
    ensures Next(st, cmd) == st
  {
    hide ApplyOutput, WakeAll, CancelRuns, Settled;
  }

  /** Giving a result or an error back stops the run, whatever else it changes. */
  lemma ResultStopsRun(st: State, cmd: Command, id: RunId)
    requires Inv(st) && Linked(st) && Names(cmd, id) && !cmd.Beat? && Step(st, cmd).Ok?
    ensures id in st.runs && id in Next(st, cmd).runs && Next(st, cmd).runs[id].state != ACTIVE
  {
    if cmd.Return? { ReturnStopsRun(st, cmd, id); } else { GiveBackStopsRun(st, cmd, id); }
  }

  lemma ReturnStopsRun(st: State, cmd: Command, id: RunId)
    requires Linked(st) && Names(cmd, id) && cmd.Return? && Step(st, cmd).Ok?
    ensures id in st.runs && id in Next(st, cmd).runs && Next(st, cmd).runs[id].state == DONE
  {
    hide ApplyOutput, Settled, Fits;
    if st.runs[id].state != DONE { ApplyOutputKeepsRuns(Finished(st, id, cmd.verdict.digest), st.runs[id], cmd.out, cmd.verdict, cmd.now); }
  }

  lemma GiveBackStopsRun(st: State, cmd: Command, id: RunId)
    requires Linked(st) && Names(cmd, id) && cmd.GiveBack? && Step(st, cmd).Ok?
    ensures id in st.runs && id in Next(st, cmd).runs && Next(st, cmd).runs[id].state != ACTIVE
  {
    hide WokenAgent, WokenCandidate, WakeResumes;
  }

  lemma ApplyOutputKeepsRuns(st: State, r: SessionTypes.Run, out: Output, v: Verdict, now: nat)
    requires r.session in st.sessions && r.agent in st.agents && (r.candidate.Some? ==> r.candidate.value in st.candidates)
    ensures var o := ApplyOutput(st, r, out, v, now); o.Ok? ==> o.state.runs == st.runs
  {
    hide IntentProblem, UpToDate, LiveCandidate;
  }

  /** No heartbeat, result or error that names the run changes anything. */
  ghost predicate Powerless(st: State, id: RunId) {
    Linked(st) && id in st.runs && forall cmd :: Names(cmd, id) ==> Next(st, cmd) == st
  }

  lemma StoppedForGood(st: State, cmds: seq<Command>, id: RunId)
    requires Inv(st) && id in st.runs && st.runs[id].state != ACTIVE
    ensures Powerless(Run(st, cmds), id) && Run(st, cmds).runs[id] == st.runs[id]
  {
    hide Inv, Next, Run, Linked, Names;
    var later := Run(st, cmds);
    RunGrows(st, cmds);
    RunKeepsInv(st, cmds);
    assert SessionGrowth.RunGrows(st.runs[id], later.runs[id]);
    InvLinked(later);
    forall cmd | Names(cmd, id) ensures Next(later, cmd) == later { StoppedRunIsInert(later, cmd, id); }
  }

  /** A run's result takes effect at most once: after it, no interleaving lets a command that names the run change anything. */
  lemma {:induction false} ResultTakesEffectOnce(slots: set<Slot>, before: seq<Command>, result: Command, after: seq<Command>, id: RunId)
    requires Names(result, id) && !result.Beat?
    ensures var st, taken, later := Reached(slots, before), Reached(slots, before + [result]), Reached(slots, before + [result] + after);
      Linked(st) && (Step(st, result).Ok? ==> Powerless(later, id) && id in taken.runs && later.runs[id] == taken.runs[id])
  {
    hide Inv, Step, Linked, Run, Powerless, Reached;
    var st := Reached(slots, before);
    ReachedNext(slots, before, result);
    ReachedLonger(slots, before + [result], after);
    if Step(st, result).Ok? {
      ResultStopsRun(st, result, id);
      StoppedForGood(Next(st, result), after, id);
    }
  }

  /** The run was started under another epoch of its worker or of its session, or the session does not run. */
  predicate OutOfDate(st: State, r: SessionTypes.Run) {
    || (r.slot in st.workers && st.workers[r.slot] != r.workerEpoch)
    || (r.session in st.sessions && (st.sessions[r.session].epoch != r.sessionEpoch || st.sessions[r.session].lifecycle != RUNNING))
  }

  /** Whatever bumps an epoch disarms the runs of the earlier one for good. */
  lemma {:induction false} OldGenerationsArePowerless(slots: set<Slot>, before: seq<Command>, after: seq<Command>, id: RunId)
    ensures var st, later := Reached(slots, before), Reached(slots, before + after);
      id in st.runs && OutOfDate(st, st.runs[id]) ==> Powerless(later, id) && later.runs[id] == st.runs[id]
  {
    hide Run, Powerless, Reached, Core, ReadyOk, RunsFenced;
    var st := Reached(slots, before);
    ReachedLonger(slots, before, after);
    if id in st.runs && OutOfDate(st, st.runs[id]) {
      OutOfDateIsStopped(st, id);
      StoppedForGood(st, after, id);
    }
  }

  lemma OutOfDateIsStopped(st: State, id: RunId)
    requires RunsFenced(st) && id in st.runs && OutOfDate(st, st.runs[id])
    ensures st.runs[id].state != ACTIVE
  {
    assert st.runs[id].state == ACTIVE ==> Current(st, st.runs[id]);
  }

  /** A worker process that was replaced can change nothing with its old epoch. */
  lemma StaleWorkerIsPowerless(st: State, cmd: Command)
    requires Linked(st) && (cmd.Beat? || cmd.Return? || cmd.GiveBack? || cmd.Take?) && (cmd.slot in st.workers ==> st.workers[cmd.slot] != cmd.epoch)
    ensures Next(st, cmd) == st
  {
    hide ApplyOutput, WakeAll, CancelRuns, Settled, StartRun, GiveUp, DropStaleRun;
  }

  // ---------------------------------------------------------------- decisions are final

  /** Whatever happens afterwards, a published or dropped candidate, a stopped run, a deleted message and the end of a session stay;
      a bot's words never change while they are readable, and a message never changes without a new revision. */
  lemma {:induction false} DecisionsAreFinal(slots: set<Slot>, before: seq<Command>, after: seq<Command>)
    ensures var st := Reached(slots, before);
      var st' := Reached(slots, before + after);
      && (forall c :: c in st.candidates && !Live(st.candidates[c].state) ==> c in st'.candidates && st'.candidates[c] == st.candidates[c])
      && (forall r :: r in st.runs && st.runs[r].state != ACTIVE ==> r in st'.runs && st'.runs[r] == st.runs[r])
      && (forall m :: m in st.messages ==> m in st'.messages && MessageGrows(st.messages[m], st'.messages[m]))
      && (forall s :: s in st.sessions ==> s in st'.sessions && SessionGrows(st.sessions[s], st'.sessions[s]))
  {
    hide Inv, Reached, Run;
    ReachedLonger(slots, before, after);
    var st := Reached(slots, before);
    RunGrows(st, after);
    var st' := Run(st, after);
    forall c | c in st.candidates && !Live(st.candidates[c].state) ensures st'.candidates[c] == st.candidates[c] {
      assert CandidateGrows(st.candidates[c], st'.candidates[c]);
    }
    forall r | r in st.runs && st.runs[r].state != ACTIVE ensures st'.runs[r] == st.runs[r] { assert SessionGrowth.RunGrows(st.runs[r], st'.runs[r]); }
  }

  /** A failure raises the owner's wake without demoting what it has ready: READY alone does not mean reviewed in the present wake,
      so publication has to compare the two, and NothingUnread shows that it does. */
  lemma FailureLeavesReadyBehind(st: State, cmd: Command, c: CandidateId)
    requires Inv(st) && Linked(st) && cmd.GiveBack? && cmd.reusable && Step(st, cmd).Ok?
    requires st.runs[cmd.run].state == ACTIVE && c in st.candidates && st.candidates[c].state == READY && st.candidates[c].agent == st.runs[cmd.run].agent
    ensures var st' := Next(st, cmd);
      && st'.candidates[c].state == READY && st'.candidates[c].agent in st'.agents
      && st'.candidates[c].reviewedWake < st'.agents[st'.candidates[c].agent].wakeSeq
      && forall targets :: !(Row(st', c, targets).reviewedWake == Row(st', c, targets).currentWake)
  {
    hide AgentsOk, RunsOk, MessagesOk, MessagesDistinct, OneLiveCandidate, OneRunPerSlot, CountOk, CoverageOk, RunsFenced;
    assert CandidateOk(st, st.candidates[c]);
  }

  // ---------------------------------------------------------------- the operator's pause

  predicate Held(s: Session) { s.lifecycle == PAUSED && (s.userPaused || !s.budgetPaused) }

  /** A session that the operator paused runs again only by the operator's command: no budget renewal, message, recovery or timer resumes it. */
  lemma {:induction false} PauseHolds(slots: set<Slot>, before: seq<Command>, after: seq<Command>, sid: SessionId)
    requires forall i :: 0 <= i < |after| ==> !(after[i].Act? && after[i].sid == sid)
    ensures var st, later := Reached(slots, before), Reached(slots, before + after);
      sid in st.sessions && Held(st.sessions[sid]) ==> sid in later.sessions && Held(later.sessions[sid])
  {
    hide Inv, Run, Reached, Held;
    ReachedLonger(slots, before, after);
    var st := Reached(slots, before);
    if sid in st.sessions && Held(st.sessions[sid]) { StaysHeld(st, after, sid); }
  }

  lemma {:induction false} StaysHeld(st: State, cmds: seq<Command>, sid: SessionId)
    requires Inv(st) && sid in st.sessions && Held(st.sessions[sid])
    requires forall i :: 0 <= i < |cmds| ==> !(cmds[i].Act? && cmds[i].sid == sid)
    ensures sid in Run(st, cmds).sessions && Held(Run(st, cmds).sessions[sid])
    decreases |cmds|
  {
    hide Inv, Next, Held;
    if cmds != [] {
      InvLinked(st);
      StepKeepsInv(st, cmds[0]);
      StepHolds(st, cmds[0], sid);
      StaysHeld(Next(st, cmds[0]), cmds[1..], sid);
    }
  }

  lemma StepHolds(st: State, cmd: Command, sid: SessionId)
    requires Linked(st) && sid in st.sessions && Held(st.sessions[sid]) && !(cmd.Act? && cmd.sid == sid)
    ensures sid in Next(st, cmd).sessions && Held(Next(st, cmd).sessions[sid])
  {
    hide Next, Held;
    if cmd.Take? { TakeKeepsSessions(st, cmd); }
    else if cmd.Return? { ReturnKeepsSessions(st, cmd); }
    else if cmd.GiveBack? || cmd.Beat? || cmd.Register? || cmd.Expire? { WorkerStepsKeepSessions(st, cmd); }
    else if cmd.Tick? { TickKeepsMessages(st, cmd); }
    else if cmd.Say? || cmd.Change? || cmd.Source? { PeopleKeepThePause(st, cmd, sid); }
    else if cmd.Commit? { CommitKeepsThePause(st, cmd, sid); }
    else if cmd.AutoRenew? || cmd.Stop? { LimitsKeepThePause(st, cmd, sid); }
    else if cmd.Enable? || cmd.Regroup? || cmd.Retry? || cmd.Restart? { RosterKeepsThePause(st, cmd, sid); }
    else { OperatorKeepsThePause(st, cmd, sid); }
  }

  lemma TakeKeepsSessions(st: State, cmd: Command)
    requires Linked(st) && cmd.Take?
    ensures Next(st, cmd).sessions == st.sessions
  {
    hide KindFor, NewRun, Claimable, WokenAgent, WokenCandidate, WakeResumes;
  }

  lemma ReturnKeepsSessions(st: State, cmd: Command)
    requires Linked(st) && cmd.Return?
    ensures Next(st, cmd).sessions == st.sessions
  {
    hide WokenAgent, WokenCandidate, WakeResumes, ApplyOutput, Settled, Fits;
    if cmd.run in st.runs && Authorize(st, cmd.slot, cmd.epoch, cmd.run, cmd.token, cmd.now).Pass? {
      var r := st.runs[cmd.run];
      if r.candidate.Some? ==> r.candidate.value in st.candidates {
        ApplyOutputKeepsMessages(Finished(st, cmd.run, cmd.verdict.digest), r, cmd.out, cmd.verdict, cmd.now);
      }
    }
  }

  lemma WorkerStepsKeepSessions(st: State, cmd: Command)
    requires Linked(st) && (cmd.GiveBack? || cmd.Beat? || cmd.Register? || cmd.Expire?)
    ensures Next(st, cmd).sessions == st.sessions
  {
    hide WokenAgent, WokenCandidate, WakeResumes;
  }

  lemma PeopleKeepThePause(st: State, cmd: Command, sid: SessionId)
    requires Linked(st) && sid in st.sessions && Held(st.sessions[sid]) && (cmd.Say? || cmd.Change? || cmd.Source?)
    ensures sid in Next(st, cmd).sessions && Held(Next(st, cmd).sessions[sid])
  {
    hide WokenAgent, WokenCandidate, WakeResumes, Members, IntentProblem, SourceMove;
  }

  lemma LimitsKeepThePause(st: State, cmd: Command, sid: SessionId)
    requires Linked(st) && sid in st.sessions && Held(st.sessions[sid]) && (cmd.AutoRenew? || cmd.Stop?)
    ensures sid in Next(st, cmd).sessions && Held(Next(st, cmd).sessions[sid])
  {
    hide WokenAgent, WokenCandidate, WakeResumes, Members;
  }

  lemma CommitKeepsThePause(st: State, cmd: Command, sid: SessionId)
    requires Linked(st) && sid in st.sessions && Held(st.sessions[sid]) && cmd.Commit?
    ensures sid in Next(st, cmd).sessions && Held(Next(st, cmd).sessions[sid])
  {
    hide WokenAgent, WokenCandidate, WakeResumes, Members, IntentProblem, Publish, Round, Latest, NewMessage, Linked;
    if cmd.sid in st.sessions && st.sessions[cmd.sid].lifecycle == RUNNING {
      var pick := Pick(st, cmd.sid, cmd.now);
      if pick.Some? && st.candidates[pick.value].text.Some? && IntentProblem(st, cmd.sid, Some(st.candidates[pick.value].agent), st.candidates[pick.value].intent).Pass? {
        PublishedSession(st, cmd.sid, pick.value, cmd.id, cmd.now);
      }
    }
  }

  lemma OperatorKeepsThePause(st: State, cmd: Command, sid: SessionId)
    requires Linked(st) && sid in st.sessions && Held(st.sessions[sid])
    requires cmd.Create? || (cmd.Act? && cmd.sid != sid) || cmd.Configure? || cmd.Renew?
    ensures sid in Next(st, cmd).sessions && Held(Next(st, cmd).sessions[sid])
  {
    hide WokenAgent, WokenCandidate, WakeResumes, Members, Lifecycled;
    if cmd.Act? { ActKeepsOthers(st, cmd.sid, cmd.action, cmd.budgetOpen, cmd.maxRunning, cmd.now, sid); }
  }

  lemma RosterKeepsThePause(st: State, cmd: Command, sid: SessionId)
    requires Linked(st) && sid in st.sessions && Held(st.sessions[sid])
    requires cmd.Enable? || cmd.Regroup? || cmd.Retry? || cmd.Restart?
    ensures sid in Next(st, cmd).sessions && Held(Next(st, cmd).sessions[sid])
  {
    hide WokenAgent, WokenCandidate, WakeResumes, Members, Regrouped, Recover;
    if cmd.Restart? { RecoverKeepsQuiet(st, cmd.resume, cmd.now, sid); }
    if cmd.Regroup? && cmd.sid in st.sessions { RegroupedKeepsLifecycle(st, cmd.sid, cmd.kept, cmd.joined); }
  }

  lemma ActKeepsOthers(st: State, sid: SessionId, action: Action, budgetOpen: bool, maxRunning: nat, now: nat, other: SessionId)
    requires Linked(st) && other in st.sessions && other != sid
    ensures var out := Lifecycled(st, sid, action, budgetOpen, maxRunning, now);
      out.Ok? ==> other in out.state.sessions && out.state.sessions[other] == st.sessions[other]
  {
    hide WokenAgent, WokenCandidate, WakeResumes, Members, RunningElsewhere;
  }

  lemma RecoverKeepsQuiet(st: State, resume: bool, now: nat, sid: SessionId)
    requires Linked(st) && sid in st.sessions && st.sessions[sid].lifecycle != RUNNING
    ensures sid in Recover(st, resume, now).sessions && Recover(st, resume, now).sessions[sid] == st.sessions[sid]
  {
    hide WokenAgent, WokenCandidate, WakeResumes;
  }

  lemma RegroupedKeepsLifecycle(st: State, sid: SessionId, kept: map<AgentId, Selection>, joined: map<AgentId, Selection>)
    requires sid in st.sessions
    ensures Regrouped(st, sid, kept, joined).sessions ==
      st.sessions[sid := st.sessions[sid].(epoch := st.sessions[sid].epoch + 1, revision := st.sessions[sid].revision + 1)]
  {
  }
}
