/** The session service as an object over its tables. Each public method is one transaction in the order in which the
    service issues its updates, and is proved to be the corresponding step of SessionSteps. */
module SessionService {
  import opened Wrappers
  import opened Domain
  import opened SessionTypes
  import opened SessionSteps
  import opened SessionInvariant
  import opened SessionFences
  import opened SessionPublishing
  import opened SessionResults
  import opened SessionHistory
  import opened SessionTables

  class Service {
    var sessions: map<SessionId, Session>
    var agents: map<AgentId, Agent>
    var candidates: map<CandidateId, Candidate>
    var runs: map<RunId, Run>
    var messages: map<MessageId, Message>
    var workers: map<Slot, nat>

    function Rows(): State
      reads this
    {
      State(sessions, agents, candidates, runs, messages, workers)
    }

    ghost predicate Valid()
      reads this
    {
      Inv(Rows())
    }

    /** The transaction that began in state `was` did what `out` says: committed its state, or rolled back with its code. */
    ghost predicate Did(out: Outcome, r: Check, was: State)
      reads this
    {
      match out
      case Ok(st) => r.Pass? && Rows() == st
      case Reject(code) => r == Fail(code) && Rows() == was
    }

    constructor (slots: set<Slot>)
      ensures Valid() && Rows() == Initial(slots)
    {
      sessions, agents, candidates, runs, messages := map[], map[], map[], map[], map[];
      workers := map w | w in slots :: 0;
      new;
      InitialInv(slots);
    }

    // ------------------------------------------------------------ shared pieces

    method FindCandidate(a: AgentId) returns (c: Option<CandidateId>)
      requires OneLiveCandidate(Rows())
      ensures c == LiveCandidate(candidates, a)
    {
      if id :| id in candidates && candidates[id].agent == a && Live(candidates[id].state) {
        return Some(id);
      }
      return None;
    }

    method WakeOne(a: AgentId, trigger: Trigger, author: Option<AgentId>, now: nat)
      requires Linked(Rows()) && OneLiveCandidate(Rows()) && a in agents
      modifies this
      ensures Rows() == WakeAll(old(Rows()), map[a := trigger], author, now)
      ensures Linked(Rows()) && OneLiveCandidate(Rows())
    {
      hide WakeAll, OneLiveCandidate, EndsDeferral, Raised, UndeferredOf, UnreadyOf;
      ghost var was := Rows();
      WakeLinks(was, map[a := trigger], author, now);
      if !agents[a].enabled {
        WakeDisabled(was, a, trigger, author, now);
        return;
      }
      WokenRows(was, a, trigger, author, now);
      if agents[a].deferral.Some? && EndsDeferral(agents[a].deferral.value, trigger, author, now) {
        agents := agents[a := agents[a].(deferral := None, pendingSince := None, dueAt := None)];
        SameOneLive(was, Rows());
        UndeferCandidate(a);
      }
      RaiseWake(a, sessions[agents[a].session].settings, trigger, now);
    }

    /** The owner's candidate, if it was waiting, is taken up again. */
    method UndeferCandidate(a: AgentId)
      requires OneLiveCandidate(Rows())
      modifies this`candidates
      ensures candidates == UndeferredOf(old(candidates), a)
    {
      var c := FindCandidate(a);
      if c.Some? && candidates[c.value].state == DEFERRED {
        candidates := candidates[c.value := candidates[c.value].(state := if candidates[c.value].text.Some? then NEEDS_REVIEW else DRAFTING)];
      }
    }

    method RaiseWake(a: AgentId, cfg: Settings, trigger: Trigger, now: nat)
      requires a in agents
      modifies this`agents, this`candidates
      ensures agents == old(agents)[a := Raised(old(agents)[a], cfg, trigger, now)]
      ensures candidates == UnreadyOf(old(candidates), a)
    {
      var row := agents[a];
      var pending := row.wakeSeq > row.processedWake;
      var due := CoalesceDue(if pending then row.pendingSince else None, if pending then row.dueAt else None, now,
                             if trigger == DIRECTED then cfg.directedDebounceMs else cfg.debounceMs, cfg.maxCoalesceMs);
      agents := agents[a := row.(wakeSeq := row.wakeSeq + 1, pendingSince := Some(due.since),
                                 dueAt := Some(if row.deferral.Some? then row.deferral.value.until else due.due))];
      candidates := map c | c in candidates ::
        if candidates[c].agent == a && candidates[c].state == READY then candidates[c].(state := NEEDS_REVIEW) else candidates[c];
    }

    /** Wakes the agents of `who` one after another. */
    method WakeEach(who: map<AgentId, Trigger>, author: Option<AgentId>, now: nat)
      requires Linked(Rows()) && OneLiveCandidate(Rows()) && who.Keys <= agents.Keys
      modifies this
      ensures Rows() == WakeAll(old(Rows()), who, author, now)
      ensures Linked(Rows()) && OneLiveCandidate(Rows())
    {
      ghost var was := Rows();
      var todo := who.Keys;
      ghost var done: map<AgentId, Trigger> := map[];
      WakeNobody(was, author, now);
      while todo != {}
        invariant Linked(Rows()) && OneLiveCandidate(Rows()) && agents.Keys == was.agents.Keys && Linked(was)
        invariant todo <= who.Keys && done.Keys == who.Keys - todo && forall a :: a in done ==> done[a] == who[a]
        invariant Rows() == WakeAll(was, done, author, now)
        decreases todo
      {
        var a :| a in todo;
        todo := todo - {a};
        WakeOneMore(was, done, a, who[a], author, now);
        WakeOne(a, who[a], author, now);
        done := done[a := who[a]];
      }
      assert done == who;
    }

    method StopRuns(sid: SessionId, slot: Option<Slot>)
      modifies this`runs
      ensures Rows() == CancelRuns(old(Rows()), sid, slot) && candidates == old(candidates)
    {
      var todo := set r | r in runs && InScope(runs[r], sid, slot);
      ghost var was, all := runs, todo;
      while todo != {}
        invariant todo <= all && runs.Keys == was.Keys
        invariant forall r :: r in was ==> runs[r] == if r in all - todo then was[r].(state := CANCELLED) else was[r]
        decreases todo
      {
        var r :| r in todo;
        todo := todo - {r};
        runs := runs[r := runs[r].(state := CANCELLED)];
      }
      assert runs == CancelRuns(old(Rows()), sid, slot).runs;
    }

    method MoveAll(sid: SessionId, from: set<CandidateState>, to: CandidateState)
      modifies this`candidates
      ensures Rows() == MoveCandidates(old(Rows()), sid, from, to)
      ensures from <= LIVE && OneLiveCandidate(old(Rows())) ==> OneLiveCandidate(Rows())
    {
      if from <= LIVE && OneLiveCandidate(Rows()) { MovedOneLive(Rows(), MoveCandidates(Rows(), sid, from, to)); }
      candidates := map c | c in candidates ::
        if candidates[c].session == sid && candidates[c].state in from then candidates[c].(state := to) else candidates[c];
    }

    method LimitPause(sid: SessionId)
      requires sid in sessions
      modifies this
      ensures Rows() == PauseForLimit(old(Rows()), sid)
    {
      var s := sessions[sid];
      sessions := sessions[sid := s.(lifecycle := PAUSED, budgetPaused := true, userPaused := false, epoch := s.epoch + 1)];
      StopRuns(sid, None);
      MoveAll(sid, {READY}, NEEDS_REVIEW);
    }

  
    method Post(sid: SessionId, id: MessageId, author: Option<AgentId>, text: Text, intent: Intent, candidate: Option<CandidateId>, now: nat)
      requires Linked(Rows()) && OneLiveCandidate(Rows()) && sid in sessions && IntentProblem(Rows(), sid, author, intent).Pass?
      modifies this
      ensures Rows() == Append(old(Rows()), sid, id, author, text, intent, candidate, now)
      ensures Linked(Rows()) && OneLiveCandidate(Rows())
    {
      hide WakeAll, OneLiveCandidate, IntentProblem, Inserted, Members;
      ghost var was := Rows();
      InsertedLinks(was, sid, id, author, text, intent, candidate, now);
      Insert(sid, id, author, text, intent, candidate, now);
      SameOneLive(was, Rows());
      var members := MembersOf(sid);
      MembersExist(Rows(), sid);
      SameMembers(was, sid, id, author, text, intent, candidate, now);
      var audience := map a | a in members && author != Some(a) :: if a in intent.addressedTo then DIRECTED else MESSAGE;
      assert audience == Audience(was, sid, author, intent.addressedTo);
      WakeEach(audience, author, now);
    }

    method Insert(sid: SessionId, id: MessageId, author: Option<AgentId>, text: Text, intent: Intent, candidate: Option<CandidateId>, now: nat)
      requires sid in sessions && IntentProblem(Rows(), sid, author, intent).Pass?
      modifies this
      ensures Rows() == Inserted(old(Rows()), sid, id, author, text, intent, candidate, now)
    {
      hide IntentProblem, Members, NewMessage, StampAuthor;
      ghost var was := Rows();
      NewMessageIs(was, sid, id, author, text, intent, candidate, now);
      var s := sessions[sid];
      var root := if intent.replyTo.Some? then messages[intent.replyTo.value].threadRoot else id;
      sessions := sessions[sid := s.(messageSeq := s.messageSeq + 1)];
      sessions := sessions[sid := sessions[sid].(revision := s.revision + 1, lastPostAt := now, budgetPaused := s.lifecycle == PAUSED && s.budgetPaused)];
      messages := messages[id := Message(sid, s.revision + 1, author, text, intent.replyTo, intent.addressedTo, candidate, false, now, s.messageSeq + 1, root)];
      assert sessions == was.sessions[sid := NextRevision(s, now)];
      StampOnly(was, Rows(), sid, author, now);
      Stamp(sid, author, now);
    }

    method Stamp(sid: SessionId, author: Option<AgentId>, now: nat)
      modifies this`agents
      ensures agents == StampAuthor(old(Rows()), sid, author, now)
    {
      var members := MembersOf(sid);
      if author.Some? && author.value in members {
        agents := agents[author.value := agents[author.value].(lastPostAt := now)];
      }
    }

    method MembersOf(sid: SessionId) returns (members: set<AgentId>)
      ensures members == Members(Rows(), sid)
    {
      members := set a | a in agents && agents[a].session == sid && !agents[a].retired;
    }

    // ------------------------------------------------------------ operator commands

    method Lifecycle(sid: SessionId, action: Action, budgetOpen: bool, maxRunning: nat, now: nat) returns (r: Check)
      requires Valid()
      modifies this
      ensures Linked(old(Rows())) && Valid()
      ensures Did(Lifecycled(old(Rows()), sid, action, budgetOpen, maxRunning, now), r, old(Rows()))
    {
      hide Inv, WakeAll, OneLiveCandidate, CancelRuns, MoveCandidates, Members;
      ghost var was := Rows();
      InvLinked(was);
      InvOneLive(was);
      LifecycleKeepsInv(was, sid, action, budgetOpen, maxRunning, now);
      if sid !in sessions { return Fail(SESSION_NOT_FOUND); }
      var s := sessions[sid];
      if !Allowed(action, s.lifecycle) { return Fail(INVALID_LIFECYCLE); }
      r := Pass;
      if action == Start || action == Resume {
        var others := set x | x in sessions && x != sid && sessions[x].lifecycle == RUNNING;
        assert others == RunningElsewhere(was, sid);
        if !budgetOpen || !PostsLeft(s) { return Fail(LIMIT_ALREADY_REACHED); }
        if |others| >= maxRunning { return Fail(RUNNING_SESSION_LIMIT); }
        sessions := sessions[sid := s.(lifecycle := RUNNING, budgetPaused := false, userPaused := false, epoch := s.epoch + 1)];
        SameOneLive(was, Rows());
        Fence(sid, {READY}, NEEDS_REVIEW);
        var members := MembersOf(sid);
        MembersExist(Rows(), sid);
        WakeEach(Everyone(members, RECOVERY), None, now);
      } else if action == Pause {
        sessions := sessions[sid := s.(lifecycle := PAUSED, userPaused := true, epoch := s.epoch + 1)];
        SameOneLive(was, Rows());
        Fence(sid, {READY}, NEEDS_REVIEW);
      } else {
        sessions := sessions[sid := s.(lifecycle := ENDED, userPaused := false, epoch := s.epoch + 1)];
        SameOneLive(was, Rows());
        Fence(sid, LIVE, DROPPED);
      }
    }

    /** Cancels the session's runs and takes its candidates back. */
    method Fence(sid: SessionId, from: set<CandidateState>, to: CandidateState)
      requires from <= LIVE && OneLiveCandidate(Rows()) && Linked(Rows())
      modifies this`runs, this`candidates
      ensures Rows() == MoveCandidates(CancelRuns(old(Rows()), sid, None), sid, from, to)
      ensures OneLiveCandidate(Rows()) && Linked(Rows())
    {
      hide OneLiveCandidate, MoveCandidates;
      SameOneLive(Rows(), CancelRuns(Rows(), sid, None));
      StopRuns(sid, None);
      MoveAll(sid, from, to);
    }

    method Restart(resume: bool, now: nat)
      requires Valid()
      modifies this
      ensures Linked(old(Rows())) && Valid()
      ensures Rows() == Recover(old(Rows()), resume, now)
    {
      hide Inv, WakeAll, OneLiveCandidate, Regenerated, RunningAgents, Linked;
      ghost var was := Rows();
      InvLinked(was);
      InvOneLive(was);
      RecoverKeepsInv(was, resume, now);
      RefenceAll(resume);
      if resume {
        RegeneratedStays(was, resume);
        WakeRunning(now);
      }
    }

    method RefenceAll(resume: bool)
      modifies this
      ensures Rows() == Regenerated(old(Rows()), resume)
    {
      hide Refenced, Regenerated;
      RefencedEverybody(Rows(), resume);
      workers := map w | w in workers :: workers[w] + 1;
      ghost var bumped := Rows();
      RefencedNobody(bumped, resume);
      var todo := sessions.Keys;
      ghost var done: set<SessionId> := {};
      while todo != {}
        invariant todo <= sessions.Keys == bumped.sessions.Keys && done == sessions.Keys - todo
        invariant Rows() == Refenced(bumped, resume, done)
        decreases todo
      {
        var sid :| sid in todo;
        todo := todo - {sid};
        RefencedOneMore(bumped, resume, done, sid);
        RefenceOne(sid, resume);
        done := done + {sid};
      }
      assert done == sessions.Keys;
    }

    method WakeRunning(now: nat)
      requires Linked(Rows()) && OneLiveCandidate(Rows())
      modifies this
      ensures Rows() == WakeAll(old(Rows()), Everyone(RunningAgents(old(Rows())), RECOVERY), None, now)
    {
      hide WakeAll, OneLiveCandidate;
      var members := set a | a in agents && !agents[a].retired && sessions[agents[a].session].lifecycle == RUNNING;
      assert members == RunningAgents(Rows());
      WakeEach(Everyone(members, RECOVERY), None, now);
    }

    /** What recovery does to one session. */
    method RefenceOne(sid: SessionId, resume: bool)
      requires sid in sessions
      modifies this`sessions, this`runs, this`candidates
      ensures Rows() == Refenced(old(Rows()), resume, {sid})
      ensures sessions.Keys == old(sessions).Keys
    {
      hide CancelRuns, MoveCandidates, Refenced;
      RefencedRows(Rows(), resume, sid);
      StopRuns(sid, None);
      if sessions[sid].lifecycle == RUNNING {
        sessions := sessions[sid := sessions[sid].(epoch := sessions[sid].epoch + 1)];
        MoveOnly(Rows(), old(Rows()), sid, {READY}, NEEDS_REVIEW);
        MoveAll(sid, {READY}, NEEDS_REVIEW);
        if !resume { sessions := sessions[sid := sessions[sid].(lifecycle := PAUSED, userPaused := false)]; }
      }
    }

    // ------------------------------------------------------------ messages

    method Say(sid: SessionId, id: MessageId, text: Text, intent: Intent, now: nat) returns (r: Check)
      requires Valid()
      modifies this
      ensures Linked(old(Rows())) && Valid()
      ensures Did(HumanMessage(old(Rows()), sid, id, text, intent, now), r, old(Rows()))
    {
      hide Inv, Append, IntentProblem, OneLiveCandidate, Linked;
      InvLinked(Rows());
      InvOneLive(Rows());
      HumanMessageKeepsInv(Rows(), sid, id, text, intent, now);
      if sid !in sessions { return Fail(SESSION_NOT_FOUND); }
      if sessions[sid].lifecycle == ENDED { return Fail(SESSION_ENDED); }
      r := IntentProblem(Rows(), sid, None, intent);
      if r.Fail? { return; }
      if id in messages { return Fail(PRIMARY_KEY); }
      Post(sid, id, None, text, intent, None, now);
    }

    /** newText None deletes the message. */
    method ChangeText(sid: SessionId, id: MessageId, newText: Option<Text>, now: nat) returns (r: Check)
      requires Valid()
      modifies this
      ensures Linked(old(Rows())) && Valid()
      ensures Did(ChangeMessage(old(Rows()), sid, id, newText, now), r, old(Rows()))
    {
      hide Inv, WakeAll, OneLiveCandidate, Members;
      ghost var was := Rows();
      InvLinked(was);
      InvOneLive(was);
      ChangeMessageKeepsInv(was, sid, id, newText, now);
      if sid !in sessions { return Fail(SESSION_NOT_FOUND); }
      if sessions[sid].lifecycle == ENDED { return Fail(SESSION_ENDED); }
      if id !in messages || messages[id].session != sid || messages[id].deleted { return Fail(MESSAGE_NOT_FOUND); }
      if newText.Some? && messages[id].author.Some? { return Fail(BOT_TEXT_IMMUTABLE); }
      var s := sessions[sid];
      sessions := sessions[sid := s.(revision := s.revision + 1)];
      messages := messages[id := messages[id].(text := newText.GetOr(0), deleted := newText.None?, revision := s.revision + 1)];
      SameOneLive(was, Rows());
      var members := MembersOf(sid);
      MembersExist(Rows(), sid);
      SameAgentsSameMembers(Rows(), was, sid);
      WakeEach(Everyone(members, EDIT), None, now);
      r := Pass;
    }

    // ------------------------------------------------------------ workers

    method Beat(slot: Slot, epoch: nat, id: RunId, token: Token, now: nat) returns (r: Check)
      requires Valid()
      modifies this
      ensures Did(Heartbeat(old(Rows()), slot, epoch, id, token, now), r, old(Rows())) && Valid()
    {
      hide Inv;
      HeartbeatKeepsInv(Rows(), slot, epoch, id, token, now);
      r := Authorize(Rows(), slot, epoch, id, token, now);
      if r.Pass? {
        runs := runs[id := runs[id].(leaseUntil := now + sessions[runs[id].session].settings.leaseMs)];
      }
    }

    method GiveBack(slot: Slot, epoch: nat, id: RunId, token: Token, reusable: bool, providerRetryAt: nat, now: nat) returns (r: Check)
      requires Valid()
      modifies this
      ensures Linked(old(Rows())) && Valid()
      ensures Did(FailRun(old(Rows()), slot, epoch, id, token, reusable, providerRetryAt, now), r, old(Rows()))
    {
      hide Inv, WakeAll, CancelRuns, OneLiveCandidate;
      ghost var was := Rows();
      InvLinked(was);
      InvOneLive(was);
      FailRunKeepsInv(was, slot, epoch, id, token, reusable, providerRetryAt, now);
      if id !in runs { return Fail(RUN_NOT_FOUND); }
      if runs[id].slot != slot || runs[id].token != token { return Fail(RUN_FORBIDDEN); }
      if runs[id].state == FAILED { return Pass; }
      r := Authorize(Rows(), slot, epoch, id, token, now);
      if r.Fail? { return; }
      var run := runs[id];
      if !reusable {
        StopRuns(run.session, Some(slot));
        SameOneLive(was, Rows());
        WakeOne(run.agent, OTHER, None, now);
        return;
      }
      runs := runs[id := run.(state := FAILED)];
      var a := agents[run.agent];
      var count := a.errorCount + 1;
      agents := agents[run.agent := a.(errorCount := count, retryAt := Some(Max(now + RetryDelay(count), providerRetryAt)), wakeSeq := a.wakeSeq + 1)];
    }

    method Register(slot: Slot, now: nat) returns (r: Check)
      requires Valid()
      modifies this
      ensures Linked(old(Rows())) && Valid()
      ensures Did(RegisterWorker(old(Rows()), slot, now), r, old(Rows()))
    {
      hide Inv, WakeAll, OneLiveCandidate, Replaced, RegisterWorker;
      ghost var was := Rows();
      InvLinked(was);
      InvOneLive(was);
      RegisterWorkerKeepsInv(was, slot, now);
      if slot !in workers {
        UnknownSlot(was, slot, now);
        return Fail(WORKER_FORBIDDEN);
      }
      RegisteredIs(was, slot, now);
      workers := workers[slot := workers[slot] + 1];
      ghost var bumped := Rows();
      SameOneLive(was, bumped);
      ReplaceRuns(slot, now);
      r := Pass;
    }

    /** Cancels the runs that the slot holds for its owners and wakes the owners whose session runs. */
    method ReplaceRuns(slot: Slot, now: nat)
      requires Linked(Rows()) && OneLiveCandidate(Rows())
      modifies this
      ensures Rows() == WakeAll(Replaced(old(Rows()), slot, Owners(old(Rows()), slot)), Everyone(InRunning(old(Rows()), Owners(old(Rows()), slot)), RECOVERY), None, now)
    {
      hide WakeAll, OneLiveCandidate, Replaced;
      ghost var was := Rows();
      var todo := set a | a in agents && agents[a].slot == slot && !agents[a].retired;
      ghost var done: set<AgentId> := {};
      ReplacedNobody(was, slot);
      WakeNobody(was, None, now);
      while todo != {}
        invariant done !! todo && done + todo == Owners(was, slot)
        invariant Linked(Rows()) && OneLiveCandidate(Rows()) && Linked(Replaced(was, slot, done))
        invariant agents.Keys == was.agents.Keys && sessions == was.sessions && forall a :: a in agents ==> agents[a].session == was.agents[a].session
        invariant Rows() == WakeAll(Replaced(was, slot, done), Everyone(InRunning(was, done), RECOVERY), None, now)
        decreases todo
      {
        var a :| a in todo;
        todo := todo - {a};
        ghost var before := Rows();
        ReplacedOneMore(was, slot, done, a, now);
        StopRuns(agents[a].session, Some(slot));
        SameOneLive(before, Rows());
        if sessions[agents[a].session].lifecycle == RUNNING {
          ghost var stopped := Rows();
          WakeOne(a, RECOVERY, None, now);
          WakeLeavesOwners(stopped, a, RECOVERY, now);
        }
        done := done + {a};
      }
    }

    // ------------------------------------------------------------ the clock

    method Expire(now: nat)
      requires Valid()
      modifies this
      ensures Linked(old(Rows())) && Valid()
      ensures Rows() == ExpireLeases(old(Rows()), now)
    {
      hide Inv, WakeAll, OneLiveCandidate, Lapsed, LapsedOwners, Linked;
      ghost var was := Rows();
      InvLinked(was);
      InvOneLive(was);
      ExpireLeasesKeepsInv(was, now);
      var todo := set r | r in runs && runs[r].state == ACTIVE && runs[r].leaseUntil <= now;
      ghost var all, done: set<RunId> := Expired(was, now), {};
      LapsedNobody(was);
      WakeNobody(was, None, now);
      while todo != {}
        invariant done !! todo && done + todo == all
        invariant Linked(Rows()) && OneLiveCandidate(Rows()) && Linked(Lapsed(was, done))
        invariant agents.Keys == was.agents.Keys && sessions == was.sessions && runs == Lapsed(was, done).runs
        invariant Rows() == WakeAll(Lapsed(was, done), Everyone(LapsedOwners(was, done), RECOVERY), None, now)
        decreases todo
      {
        var r :| r in todo;
        todo := todo - {r};
        ghost var before := Rows();
        LapsedOneMore(was, all, done, r, now);
        runs := runs[r := runs[r].(state := CANCELLED)];
        SameOneLive(before, Rows());
        if sessions[runs[r].session].lifecycle == RUNNING {
          ghost var stopped := Rows();
          WakeOne(runs[r].agent, RECOVERY, None, now);
          WakeLeavesOwners(stopped, stopped.runs[r].agent, RECOVERY, now);
        }
        done := done + {r};
      }
      assert done == all;
    }

    method TickOne(a: AgentId, agenda: bool, idle: bool, now: nat) returns (r: Check)
      requires Valid()
      modifies this
      ensures Linked(old(Rows())) && Valid()
      ensures Did(TickAgent(old(Rows()), a, agenda, idle, now), r, old(Rows()))
    {
      hide Inv, WakeAll, OneLiveCandidate, Busy, StaleReady;
      ghost var was := Rows();
      InvLinked(was);
      InvOneLive(was);
      TickAgentKeepsInv(was, a, agenda, idle, now);
      if a !in agents { return Fail(AGENT_NOT_FOUND); }
      r := Pass;
      if !agents[a].enabled || agents[a].retired || sessions[agents[a].session].lifecycle != RUNNING { return; }
      if agenda { WakeOneKeeping(a, AGENDA, now); }
      if agents[a].deferral.Some? && agents[a].deferral.value.until <= now { WakeOneKeeping(a, OTHER, now); }
      DemoteStale(a, now);
      var busy := Busy(Rows(), a);
      var row := agents[a];
      if idle && !busy && row.deferral.None? && row.wakeSeq == row.processedWake && row.errorCount == 0 { WakeOneKeeping(a, OTHER, now); }
    }

    method WakeOneKeeping(a: AgentId, trigger: Trigger, now: nat)
      requires Linked(Rows()) && OneLiveCandidate(Rows()) && a in agents
      modifies this
      ensures Rows() == Wake(old(Rows()), a, trigger, now)
      ensures Linked(Rows()) && OneLiveCandidate(Rows()) && a in agents
    {
      hide WakeAll, OneLiveCandidate;
      WakeLeavesOwners(Rows(), a, trigger, now);
      WakeOne(a, trigger, None, now);
    }

    method DemoteStale(a: AgentId, now: nat)
      requires Linked(Rows()) && OneLiveCandidate(Rows()) && a in agents
      modifies this`candidates
      ensures Rows() == StaleReady(old(Rows()), a, now)
      ensures Linked(Rows()) && OneLiveCandidate(Rows())
    {
      ghost var was := Rows();
      var c := FindCandidate(a);
      if c.Some? {
        var k := candidates[c.value];
        if k.state == READY && (k.reviewDueAt <= now || k.reviewedRevision != sessions[agents[a].session].revision || k.reviewedWake != agents[a].wakeSeq) {
          candidates := candidates[c.value := k.(state := NEEDS_REVIEW)];
        }
      }
      assert candidates == StaleReady(was, a, now).candidates;
      MovedOneLive(was, Rows());
    }

    // ------------------------------------------------------------ publication

    method LatestMessage(sid: SessionId) returns (m: Option<MessageId>)
      requires MessagesDistinct(Rows())
      ensures m == Latest(Rows(), sid)
    {
      if x :| x in messages && IsLatest(Rows(), sid, x) {
        OneLatest(Rows(), sid, x);
        return Some(x);
      }
      return None;
    }

    /** The rows that the arbitration looks at. */
    method ListReady(sid: SessionId, targets: set<AgentId>) returns (rows: seq<Eligible>)
      requires CandidatesOk(Rows())
      ensures Lists(Rows(), sid, targets, rows)
    {
      var todo := set c | c in candidates && candidates[c].session == sid && candidates[c].state == READY;
      ghost var all, done := todo, {};
      rows := [];
      while todo != {}
        invariant done + todo == all && done !! todo
        invariant forall c :: c in done ==> c in candidates && candidates[c].agent in agents && Row(Rows(), c, targets) in rows
        invariant forall e :: e in rows ==> e.id in done && e.id in candidates && candidates[e.id].agent in agents && e == Row(Rows(), e.id, targets)
        decreases todo
      {
        var c :| c in todo;
        assert CandidateOk(Rows(), candidates[c]);
        todo := todo - {c};
        done := done + {c};
        rows := rows + [Row(Rows(), c, targets)];
      }
      assert done == all;
    }

    method Choose(sid: SessionId, now: nat) returns (pick: Option<CandidateId>)
      requires Valid() && sid in sessions
      ensures pick == Pick(Rows(), sid, now)
    {
      hide CandidatesOk, AgentsOk, RunsOk, MessagesOk, MessagesDistinct, OneLiveCandidate, OneRunPerSlot, CountOk, CoverageOk, ReadyOk, RunsFenced, Row, Publishable, Before, IsLatest, SelectCandidate;
      var latest := LatestMessage(sid);
      var targets: set<AgentId> := {};
      if latest.Some? {
        LatestIsStored(Rows(), sid);
        targets := set a | a in messages[latest.value].addressedTo;
      }
      var s := sessions[sid];
      var round := Arbitration(s.revision, now, s.settings.agingMs, targets, if latest.Some? then messages[latest.value].createdAt + s.settings.replyGraceMs else 0);
      assert round == Round(Rows(), sid, now);
      var rows := ListReady(sid, targets);
      var selected := SelectCandidate(rows, round);
      SelectedIsPick(Rows(), sid, now, rows);
      pick := if selected.Some? then Some(selected.value.id) else None;
    }

    method Commit(sid: SessionId, budgetExceeded: bool, bindingCurrent: bool, id: MessageId, now: nat) returns (r: Check)
      requires Valid()
      modifies this
      ensures Linked(old(Rows())) && Valid()
      ensures Did(CommitOne(old(Rows()), sid, budgetExceeded, bindingCurrent, id, now), r, old(Rows()))
    {
      hide Inv, PauseForLimit, Publish, IntentProblem, OneLiveCandidate, Round, Linked, IsPick;
      ghost var was := Rows();
      InvLinked(was);
      InvOneLive(was);
      CommitOneKeepsInv(was, sid, budgetExceeded, bindingCurrent, id, now);
      if sid !in sessions { return Fail(SESSION_NOT_FOUND); }
      r := Pass;
      var s := sessions[sid];
      if s.lifecycle != RUNNING { return; }
      if budgetExceeded || !PostsLeft(s) { LimitPause(sid); return; }
      if now < s.lastPostAt + s.settings.postGapMs { return; }
      var pick := Choose(sid, now);
      if pick.None? { return; }
      PickIsReady(was, sid, now);
      var c := pick.value;
      var k := candidates[c];
      if k.reviewDueAt <= now || !bindingCurrent { candidates := candidates[c := k.(state := NEEDS_REVIEW)]; return; }
      if k.text.None? { return Fail(EMPTY_CANDIDATE); }
      if IntentProblem(Rows(), sid, Some(k.agent), k.intent).Fail? { candidates := candidates[c := k.(state := NEEDS_REVIEW)]; return; }
      if id in messages { return Fail(PRIMARY_KEY); }
      PublishRow(sid, c, id, now);
      if !PostsLeft(sessions[sid]) { LimitPause(sid); }
    }

    method PublishRow(sid: SessionId, c: CandidateId, id: MessageId, now: nat)
      requires Linked(Rows()) && OneLiveCandidate(Rows()) && sid in sessions && c in candidates && candidates[c].text.Some?
      requires IntentProblem(Rows(), sid, Some(candidates[c].agent), candidates[c].intent).Pass?
      modifies this
      ensures Rows() == Publish(old(Rows()), sid, c, id, now) && sid in sessions
    {
      hide IntentProblem, Append, OneLiveCandidate;
      var k := candidates[c];
      AppendKeepsKeys(Rows(), sid, id, Some(k.agent), k.text.value, k.intent, Some(c), now);
      Post(sid, id, Some(k.agent), k.text.value, k.intent, Some(c), now);
      candidates := candidates[c := candidates[c].(state := COMMITTED)];
      sessions := sessions[sid := sessions[sid].(botCount := sessions[sid].botCount + 1)];
    }

    // ------------------------------------------------------------ results

    method Return(slot: Slot, epoch: nat, id: RunId, token: Token, out: Output, v: Verdict, now: nat) returns (r: Check)
      requires Valid()
      modifies this
      ensures Valid()
      ensures Did(CompleteRun(old(Rows()), slot, epoch, id, token, out, v, now), r, old(Rows()))
    {
      hide Inv, ApplyOutput, Settled, MoveOwn, Fits, OneLiveCandidate, Authorize, Live;
      ghost var was := Rows();
      InvOneLive(was);
      CompleteRunKeepsInv(was, slot, epoch, id, token, out, v, now);
      if id !in runs { return Fail(RUN_NOT_FOUND); }
      if runs[id].slot != slot || runs[id].token != token { return Fail(RUN_FORBIDDEN); }
      var run := runs[id];
      if !Fits(run.kind, out) { return Fail(INVALID_OUTPUT); }
      if run.state == DONE { return if run.resultHash == Some(v.digest) then Pass else Fail(IDEMPOTENCY_CONFLICT); }
      r := Authorize(Rows(), slot, epoch, id, token, now);
      if r.Fail? { return; }
      if !v.callRecorded { return Fail(MODEL_CALL_NOT_RECORDED); }
      if run.candidate.Some? {
        var c := run.candidate.value;
        if c !in candidates || candidates[c].version != run.candidateVersion || candidates[c].agent != run.agent || !Live(candidates[c].state) {
          return Fail(STALE_CANDIDATE);
        }
      }
      AuthorizedExists(was, slot, epoch, id, token, now);
      r := Accept(slot, epoch, id, token, run, out, v, now);
    }

    /** The changes of an authorized result, or none of them. */
    method Accept(slot: Slot, epoch: nat, id: RunId, token: Token, run: Run, out: Output, v: Verdict, now: nat) returns (r: Check)
      requires Valid() && OneLiveCandidate(Rows()) && id in runs && runs[id] == run && run.state == ACTIVE && Owns(Rows(), slot, id, token) && Fits(run.kind, out)
      requires Authorize(Rows(), slot, epoch, id, token, now).Pass? && v.callRecorded && run.session in sessions && run.agent in agents
      requires forall c :: run.candidate == Some(c) ==>
        (c in candidates && candidates[c].version == run.candidateVersion && candidates[c].agent == run.agent && Live(candidates[c].state))
      modifies this`runs, this`agents, this`candidates
      ensures Did(CompleteRun(old(Rows()), slot, epoch, id, token, out, v, now), r, old(Rows()))
    {
      hide Inv, ApplyOutput, Settled, MoveOwn, Fits, OneLiveCandidate, Authorize, Live, CompleteRun;
      ghost var was := Rows();
      var savedAgents, savedCandidates := agents, candidates;
      r := Apply(run, out, v, now);
      if r.Fail? {
        RefusedIs(was, slot, epoch, id, token, out, v, now, r.code);
        return;
      }
      AppliedOneLive(was, Rows(), id, run, out, v, now);
      CompletedIs(was, slot, epoch, id, token, out, v, now, Rows());
      if !v.accepted {
        agents, candidates := savedAgents, savedCandidates;
        return Fail(STALE_EVIDENCE);
      }
      if v.privateChanged && !Foreground(run.kind) { MoveOwned(run.agent, {READY}, NEEDS_REVIEW); }
      Settle(id, run, v.digest, now);
    }

    /** Whether the owner has a live candidate that is not ready. */
    method IsBehind(a: AgentId) returns (behind: bool)
      requires OneLiveCandidate(Rows())
      ensures behind == var c := LiveCandidate(candidates, a); c.Some? && c.value in candidates && candidates[c.value].state != READY
    {
      var c := FindCandidate(a);
      CandidateIsStored(candidates, a);
      behind := c.Some? && candidates[c.value].state != READY;
    }

    /** The part of a result that depends on the model's answer. */
    method Apply(r: Run, out: Output, v: Verdict, now: nat) returns (ok: Check)
      requires r.session in sessions && r.agent in agents && (r.candidate.Some? ==> r.candidate.value in candidates) && OneLiveCandidate(Rows())
      modifies this`agents, this`candidates
      ensures Did(ApplyOutput(old(Rows()), r, out, v, now), ok, old(Rows()))
    {
      hide OneLiveCandidate, IntentProblem, MoveOwn, DeferAgent, LiveCandidate;
      var s, a := sessions[r.session], agents[r.agent];
      var ready := UpToDate(Rows(), r, v);
      var notBefore := Max(now + s.settings.arbitrationMs + v.jitter, a.lastPostAt + s.settings.agentCooldownMs);
      var due := now + s.settings.reviewTtlMs;
      ok := Pass;
      match r.kind {
        case Observe =>
        case Memory => if out.Remembered? && out.touched { MoveOwned(r.agent, {READY}, NEEDS_REVIEW); }
        case Decide =>
          if out.Speak? {
            ok := IntentProblem(Rows(), r.session, Some(r.agent), out.intent);
            if ok.Fail? { return; }
            var live := FindCandidate(r.agent);
            if live.Some? { return Fail(CANDIDATE_ALREADY_EXISTS); }
            if v.newId in candidates { return Fail(PRIMARY_KEY); }
            candidates := candidates[v.newId := Candidate(r.agent, r.session, 1, DRAFTING, None, out.intent,
              r.SnapshotRevision(), r.SnapshotRevision(), r.wakeSeq, now, notBefore, due)];
          } else if out.Wait? {
            ok := Defer(r.agent, out.kind, out.afterMs, now);
          }
        case Draft =>
          if r.candidate.None? { return Fail(CANDIDATE_MISSING); }
          var c := r.candidate.value;
          if out.Drafted? {
            candidates := candidates[c := Reviewed(candidates[c], r, Some(out.text), candidates[c].intent, ready, notBefore, due)];
          } else {
            candidates := candidates[c := candidates[c].(state := DROPPED)];
          }
        case Review =>
          if r.candidate.None? { return Fail(CANDIDATE_MISSING); }
          var c := r.candidate.value;
          if !r.context.coverageComplete && out.Keep? { return Fail(REVIEW_RECONSTRUCTION_REQUIRED); }
          if out.Wait? {
            ok := Defer(r.agent, out.kind, out.afterMs, now);
          } else if out.Keep? {
            candidates := candidates[c := Reviewed(candidates[c], r, candidates[c].text, candidates[c].intent, ready, notBefore, due)];
          } else if out.Rewrite? {
            ok := IntentProblem(Rows(), r.session, Some(r.agent), out.intent);
            if ok.Fail? { return; }
            candidates := candidates[c := Reviewed(candidates[c], r, Some(out.text), out.intent, ready, notBefore, due)];
          } else {
            candidates := candidates[c := candidates[c].(state := DROPPED)];
          }
      }
    }

    method MoveOwned(a: AgentId, from: set<CandidateState>, to: CandidateState)
      requires from <= LIVE && OneLiveCandidate(Rows())
      modifies this`candidates
      ensures Rows() == MoveOwn(old(Rows()), a, from, to)
      ensures OneLiveCandidate(Rows())
    {
      hide OneLiveCandidate;
      MovedOneLive(Rows(), MoveOwn(Rows(), a, from, to));
      candidates := map c | c in candidates :: if candidates[c].agent == a && candidates[c].state in from then candidates[c].(state := to) else candidates[c];
    }

    /** The last updates of a result: the run is done and its owner knows what to do next. */
    method Settle(id: RunId, r: Run, digest: nat, now: nat)
      requires id in runs && runs[id] == r && OneLiveCandidate(Rows()) && r.agent in agents
      modifies this`runs, this`agents
      ensures var was := old(Rows());
        Rows() == was.(runs := Finished(was, id, digest).runs, agents := was.agents[r.agent := Settled(was, r, now)])
    {
      hide OneLiveCandidate, LiveCandidate, Settled;
      runs := runs[id := r.(state := DONE, resultHash := Some(digest))];
      SameOneLive(old(Rows()), Rows());
      SettledSame(old(Rows()), Rows(), r, now);
      SettleOwner(r, now);
    }

    /** First the wake that the run has processed, then the rest of the owner's row. */
    method SettleOwner(r: Run, now: nat)
      requires OneLiveCandidate(Rows()) && r.agent in agents
      modifies this`agents
      ensures agents == old(agents)[r.agent := Settled(old(Rows()), r, now)]
    {
      hide OneLiveCandidate, LiveCandidate;
      ghost var was := Rows();
      var a := agents[r.agent];
      var processed := if Foreground(r.kind) && r.context.deliveryComplete then Max(a.processedWake, r.wakeSeq) else a.processedWake;
      agents := agents[r.agent := a.(processedWake := processed)];
      SameOneLive(was, Rows());
      CandidateIsStored(candidates, r.agent);
      var behind := IsBehind(r.agent);
      var due := if a.deferral.Some? then a.dueAt
                 else if behind then Some(now)
                 else if a.wakeSeq > processed then Some(a.dueAt.GetOr(now)) else None;
      agents := agents[r.agent := agents[r.agent].(errorCount := 0, retryAt := None, dueAt := due, pendingSince := if a.wakeSeq <= processed then None else a.pendingSince)];
      assert agents[r.agent] == Settled(was, r, now);
    }

    method Defer(a: AgentId, kind: DeferralKind, afterMs: nat, now: nat) returns (r: Check)
      requires a in agents && OneLiveCandidate(Rows())
      modifies this`agents, this`candidates
      ensures Did(DeferAgent(old(Rows()), a, kind, afterMs, now), r, old(Rows()))
      ensures OneLiveCandidate(Rows())
    {
      hide OneLiveCandidate, MoveOwn;
      if kind.AnswerFrom? {
        if kind.who !in agents { return Fail(AGENT_NOT_FOUND); }
        if agents[kind.who].session != agents[a].session || kind.who == a { return Fail(INVALID_DEFER_TARGET); }
      }
      ghost var was := Rows();
      agents := agents[a := agents[a].(deferral := Some(Deferral(kind, now + afterMs)), dueAt := Some(now + afterMs))];
      SameOneLive(was, Rows());
      OneLiveMove(Rows(), a, DEFERRED);
      var c := FindCandidate(a);
      CandidateIsStored(candidates, a);
      if c.Some? { candidates := candidates[c.value := candidates[c.value].(state := DEFERRED)]; }
      r := Pass;
    }

    // ------------------------------------------------------------ claiming

    method KindOf(a: AgentId, p: Prospect, now: nat) returns (kind: Option<RunKind>)
      requires Linked(Rows()) && OneLiveCandidate(Rows()) && a in agents
      ensures kind == KindFor(Rows(), a, p, now)
    {
      hide OneLiveCandidate, LiveCandidate;
      var row := agents[a];
      var c := FindCandidate(a);
      CandidateIsStored(candidates, a);
      var holding := row.deferral.Some? || now < row.lastPostAt + sessions[row.session].settings.agentCooldownMs;
      kind := None;
      if p.pendingInput && holding {
        kind := Some(Observe);
      } else if !holding && (row.dueAt.None? || row.dueAt.value <= now) {
        if c.Some? && candidates[c.value].state == DRAFTING {
          kind := Some(Draft);
        } else if c.Some? && candidates[c.value].state == NEEDS_REVIEW {
          kind := Some(if candidates[c.value].text.Some? then Review else Draft);
        } else if c.None? && row.wakeSeq > row.processedWake {
          kind := Some(Decide);
        } else if p.pendingInput {
          kind := Some(Observe);
        }
      }
      if p.memoryTurn || (kind.None? && p.memoryDue) { kind := Some(Memory); }
    }

    /** ORDER BY revision LIMIT 101. */
    method ReadChanges(sid: SessionId, from: nat) returns (rows: seq<MessageId>)
      requires MessagesDistinct(Rows())
      ensures rows == Changed(Rows(), sid, from)
    {
      hide MessagesDistinct, ByRevision;
      ghost var st := Rows();
      var todo := set m | m in messages && messages[m].session == sid && messages[m].revision > from;
      assert todo == After(st, sid, from);
      rows := [];
      while |rows| < 101 && todo != {}
        invariant todo <= After(st, sid, from) && |rows| <= 101
        invariant rows + ByRevision(st, todo) == ByRevision(st, After(st, sid, from))
        decreases todo
      {
        FirstExists(st, todo);
        var m :| m in todo && FirstByRevision(Rows(), todo, m);
        FirstIsNext(st, sid, from, todo, m);
        rows := rows + [m];
        todo := todo - {m};
      }
      if todo == {} { NoneLeft(st); }
      assert rows <= ByRevision(st, After(st, sid, from));
    }

    /** The chunk of the changed rows that fits into one request. */
    method CutChunk(rows: seq<MessageId>, cost: map<MessageId, nat>, limit: nat) returns (n: nat)
      ensures n == Cut(rows, cost, limit, 0, 0) && n <= |rows|
    {
      n := 0;
      var size: nat := 0;
      while n < |rows|
        invariant n <= |rows|
        invariant Cut(rows, cost, limit, n, size) == Cut(rows, cost, limit, 0, 0)
      {
        var c := CostOf(cost, rows[n]);
        if n > 0 && (n >= 100 || 3 * (size + c) > limit) { break; }
        n, size := n + 1, size + c;
      }
    }

    method ReviewContext(k: Candidate, p: Prospect) returns (x: Context)
      requires MessagesDistinct(Rows()) && k.session in sessions
      ensures x == CandidateContext(Rows(), k, p)
    {
      hide MessagesDistinct, ByRevision;
      var rows := ReadChanges(k.session, k.reviewedRevision);
      var n := CutChunk(rows, p.cost, sessions[k.session].settings.contextChars);
      ByRevisionKeepsRows(Rows(), After(Rows(), k.session, k.reviewedRevision));
      var delta := Refs(Rows(), rows[..n]);
      var complete := n == |rows|;
      x := Context(k.reviewedRevision, if complete then sessions[k.session].revision else delta[n - 1].revision, complete && p.delivered, delta, p.delivered);
    }

    method BuildRun(a: AgentId, kind: RunKind, p: Prospect, epoch: nat, token: Token, now: nat) returns (r: Run)
      requires Linked(Rows()) && OneLiveCandidate(Rows()) && MessagesDistinct(Rows()) && a in agents
      ensures r == NewRun(Rows(), a, kind, p, epoch, token, now)
    {
      hide OneLiveCandidate, MessagesDistinct, LiveCandidate, CandidateContext;
      var row := agents[a];
      var s := sessions[row.session];
      var c := FindCandidate(a);
      CandidateIsStored(candidates, a);
      if kind == Memory || kind == Observe { c := None; }
      var x := PlainContext(s, p);
      if c.Some? && candidates[c.value].session in sessions { x := ReviewContext(candidates[c.value], p); }
      r := SessionTypes.Run(a, row.session, row.slot, epoch, s.epoch, kind, token, ACTIVE, row.wakeSeq, c, if c.Some? then candidates[c.value].version else 0,
                            now + s.settings.leaseMs, x, None);
    }

    /** Returns the slot's live run if its inputs still hold; otherwise gives it up. */
    method Reuse(slot: Slot, reusable: bool, now: nat) returns (reused: bool)
      requires Valid()
      modifies this
      ensures reused == (ActiveRun(old(Rows()), slot).Some? && reusable)
      ensures Linked(old(Rows())) && Rows() == (if reused then old(Rows()) else DropStaleRun(old(Rows()), slot, now))
      ensures Linked(Rows()) && OneLiveCandidate(Rows())
    {
      hide Inv, WakeAll, CancelRuns, OneLiveCandidate;
      ghost var was := Rows();
      InvLinked(was);
      InvOneLive(was);
      reused := false;
      if r :| r in runs && runs[r].state == ACTIVE && runs[r].slot == slot {
        OneActive(was, slot, r);
        if reusable { return true; }
        RunOwner(was, r);
        var owner := runs[r].agent;
        StopRuns(runs[r].session, Some(slot));
        SameOneLive(was, Rows());
        WakeOne(owner, OTHER, None, now);
      }
    }

    /** Starts a run for the first owner that has something to do; owners before it whose mandatory input does not fit give up. */
    method StartFirst(slot: Slot, epoch: nat, prospects: AgentId -> Prospect, order: seq<AgentId>, id: RunId, token: Token, now: nat)
        returns (ghost overflowed: set<AgentId>, ghost choice: Option<AgentId>)
      requires Linked(Rows()) && OneLiveCandidate(Rows()) && MessagesDistinct(Rows()) && id !in runs
      requires forall i, j :: 0 <= i < j < |order| ==> order[i] != order[j]
      modifies this`agents, this`runs
      ensures StartRun(GiveUp(old(Rows()), slot, overflowed), slot, epoch, overflowed, choice, prospects(choice.GetOr(0)), id, token, now) == Ok(Rows())
      ensures Scanned(old(Rows()), slot, prospects, order, now, overflowed, choice)
    {
      hide OneLiveCandidate, MessagesDistinct, KindFor, NewRun, GiveUp, Claimable, Linked;
      ghost var was := Rows();
      overflowed, choice := {}, None;
      NobodyGivesUp(was, slot);
      var i := 0;
      while i < |order|
        invariant i <= |order|
        invariant forall a :: a in order[..i] && HasWork(was, a, slot, prospects(a), now) ==> !prospects(a).fits
        invariant forall a :: a in overflowed <==> a in order[..i] && HasWork(was, a, slot, prospects(a), now)
        invariant Rows() == GiveUp(was, slot, overflowed)
        invariant Linked(Rows()) && OneLiveCandidate(Rows()) && MessagesDistinct(Rows()) && runs == was.runs && choice == None
      {
        var a, p := order[i], prospects(order[i]);
        assert a !in overflowed;
        OthersStillHaveWork(was, a, slot, overflowed, p, now);
        assert order[..i + 1] == order[..i] + [a];
        i := i + 1;
        if !Claimable(Rows(), a, slot, p, now) { continue; }
        ClaimableIs(Rows(), a, slot, p, now);
        var kind := KindOf(a, p, now);
        if kind.None? { continue; }
        if !p.fits {
          OneMoreGivesUp(was, slot, overflowed, a);
          agents := agents[a := agents[a].(errorCount := sessions[agents[a].session].settings.maxRetries + 1, retryAt := None)];
          overflowed := overflowed + {a};
          SameRest(GiveUp(was, slot, overflowed - {a}), Rows());
          continue;
        }
        choice := Some(a);
        var run := BuildRun(a, if kind.value == Decide && !p.delivered then Observe else kind.value, p, epoch, token, now);
        runs := runs[id := run];
        assert StopsAt(was, slot, prospects, order, now, overflowed, i - 1);
        return;
      }
      assert StopsAt(was, slot, prospects, order, now, overflowed, i);
    }

    /** order lists the owners of the slot in the order in which the service considers them; id is fresh. */
    method Take(slot: Slot, epoch: nat, oldReusable: bool, prospects: AgentId -> Prospect, order: seq<AgentId>, id: RunId, token: Token, now: nat)
        returns (r: Check, ghost overflowed: set<AgentId>, ghost choice: Option<AgentId>)
      requires Valid() && id !in runs
      requires forall i, j :: 0 <= i < j < |order| ==> order[i] != order[j]
      modifies this
      ensures Linked(old(Rows())) && Valid()
      ensures Did(Claim(old(Rows()), slot, epoch, oldReusable, overflowed, choice, prospects(choice.GetOr(0)), id, token, now), r, old(Rows()))
      ensures r.Pass? && !(ActiveRun(old(Rows()), slot).Some? && oldReusable) ==>
        Scanned(DropStaleRun(old(Rows()), slot, now), slot, prospects, order, now, overflowed, choice)
    {
      hide Inv, DropStaleRun, StartRun, GiveUp, OneLiveCandidate, MessagesDistinct, ActiveRun;
      overflowed, choice := {}, None;
      ghost var was := Rows();
      InvLinked(was);
      ClaimKeepsInv(was, slot, epoch, oldReusable, overflowed, choice, prospects(0), id, token, now);
      if slot !in workers || workers[slot] != epoch { return Fail(STALE_WORKER), overflowed, choice; }
      var reused := Reuse(slot, oldReusable, now);
      if reused { return Pass, overflowed, choice; }
      DropStaleRunKeepsInv(was, slot, now);
      InvDistinct(Rows());
      overflowed, choice := StartFirst(slot, epoch, prospects, order, id, token, now);
      ClaimKeepsInv(was, slot, epoch, oldReusable, overflowed, choice, prospects(choice.GetOr(0)), id, token, now);
      r := Pass;
    }

    // ------------------------------------------------------------ configuration and membership

    method Create(sid: SessionId, settings: Settings, members: map<AgentId, Slot>) returns (r: Check)
      requires Valid()
      modifies this
      ensures Valid()
      ensures Did(CreateSession(old(Rows()), sid, settings, members), r, old(Rows()))
    {
      hide Inv, NewAgent, CreateSession, NewRows, Enlisted;
      ghost var was := Rows();
      CreateSessionKeepsInv(was, sid, settings, members);
      CreatedNot(was, sid, settings, members);
      if sid in sessions || !(members.Keys !! agents.Keys) { return Fail(PRIMARY_KEY); }
      if exists a :: a in members && members[a] !in workers { return Fail(UNKNOWN_WORKER_SLOT); }
      CreatedIs(was, sid, settings, members);
      sessions := sessions[sid := Session(DRAFT, false, false, 0, 0, 0, 0, 0, 0, settings)];
      EnlistedRows(sid, members);
      JoinAll(sid, Enlisted(members));
      r := Pass;
    }

    /** One new member row after the other. */
    method JoinAll(sid: SessionId, joined: map<AgentId, Selection>)
      requires joined.Keys !! agents.Keys
      modifies this`agents
      ensures agents == old(agents) + NewRows(sid, joined)
    {
      ghost var was := agents;
      var todo := joined.Keys;
      while todo != {}
        invariant todo <= joined.Keys
        invariant agents == was + map a | a in joined.Keys - todo :: NewAgent(sid, joined[a].slot, joined[a].enabled)
        decreases todo
      {
        var a :| a in todo;
        todo := todo - {a};
        agents := agents[a := Agent(sid, joined[a].slot, joined[a].enabled, false, 0, 0, None, None, None, 0, 0, None)];
      }
    }

    method Configure(sid: SessionId, settings: Settings) returns (r: Check)
      requires Valid()
      modifies this
      ensures Linked(old(Rows())) && Valid()
      ensures Did(UpdateSettings(old(Rows()), sid, settings), r, old(Rows()))
    {
      hide Inv, CancelRuns;
      ghost var was := Rows();
      InvLinked(was);
      StillStepsKeepInv(was, Command.Configure(sid, settings));
      if sid !in sessions { return Fail(SESSION_NOT_FOUND); }
      if !Still(sessions[sid]) { return Fail(PAUSE_REQUIRED); }
      sessions := sessions[sid := sessions[sid].(settings := settings, epoch := sessions[sid].epoch + 1)];
      StopRuns(sid, None);
      r := Pass;
    }

    method Renew(sid: SessionId) returns (r: Check)
      requires Valid()
      modifies this
      ensures Linked(old(Rows())) && Valid()
      ensures Did(RenewBudget(old(Rows()), sid), r, old(Rows()))
    {
      hide Inv, CancelRuns;
      ghost var was := Rows();
      InvLinked(was);
      StillStepsKeepInv(was, Command.Renew(sid));
      if sid !in sessions { return Fail(SESSION_NOT_FOUND); }
      var s := sessions[sid];
      if !Still(s) { return Fail(PAUSE_REQUIRED); }
      sessions := sessions[sid := s.(windowPostStart := s.botCount, budgetPaused := false, userPaused := false, epoch := s.epoch + 1)];
      StopRuns(sid, None);
      r := Pass;
    }

    method AutoRenew(sid: SessionId, windowOver: bool, maxRunning: nat, now: nat) returns (r: Check)
      requires Valid()
      modifies this
      ensures Linked(old(Rows())) && Valid()
      ensures Did(RenewAutomatic(old(Rows()), sid, windowOver, maxRunning, now), r, old(Rows()))
    {
      hide Inv, WakeAll, OneLiveCandidate, CancelRuns, MoveCandidates, Members;
      ghost var was := Rows();
      InvLinked(was);
      InvOneLive(was);
      RenewAutomaticKeepsInv(was, sid, windowOver, maxRunning, now);
      if sid !in sessions { return Fail(SESSION_NOT_FOUND); }
      r := Pass;
      var s := sessions[sid];
      if !RenewsItself(s, windowOver) { return; }
      var others := set x | x in sessions && x != sid && sessions[x].lifecycle == RUNNING;
      assert others == RunningElsewhere(was, sid);
      if s.lifecycle == PAUSED && |others| >= maxRunning { return; }
      StopRuns(sid, None);
      sessions := sessions[sid := s.(lifecycle := RUNNING, budgetPaused := false, userPaused := false, windowPostStart := s.botCount, epoch := s.epoch + 1)];
      SameOneLive(was, Rows());
      MoveAll(sid, {READY}, NEEDS_REVIEW);
      RenewedIs(was, Rows(), sid);
      var members := MembersOf(sid);
      MembersExist(Rows(), sid);
      WakeEach(Everyone(members, OTHER), None, now);
    }

    method SetEnabled(sid: SessionId, a: AgentId, enabled: bool) returns (r: Check)
      requires Valid()
      modifies this
      ensures Valid()
      ensures Did(SetAgentEnabled(old(Rows()), sid, a, enabled), r, old(Rows()))
    {
      hide Inv, CancelRuns, MoveOwn, OneLiveCandidate;
      ghost var was := Rows();
      InvLinked(was);
      InvOneLive(was);
      SetAgentEnabledKeepsInv(was, sid, a, enabled);
      if sid !in sessions { return Fail(SESSION_NOT_FOUND); }
      if a !in agents { return Fail(AGENT_NOT_FOUND); }
      if agents[a].session != sid { return Fail(AGENT_SESSION_MISMATCH); }
      if !Still(sessions[sid]) { return Fail(PAUSE_REQUIRED); }
      if agents[a].retired { return Fail(AGENT_RETIRED); }
      StopRuns(sid, None);
      sessions := sessions[sid := sessions[sid].(epoch := sessions[sid].epoch + 1)];
      agents := agents[a := agents[a].(enabled := enabled)];
      SameOneLive(was, Rows());
      MoveOwned(a, LIVE, DROPPED);
      r := Pass;
    }

    method RetryOwner(sid: SessionId, a: AgentId, now: nat) returns (r: Check)
      requires Valid()
      modifies this
      ensures Linked(old(Rows())) && Valid()
      ensures Did(RetryAgent(old(Rows()), sid, a, now), r, old(Rows()))
    {
      hide Inv, WakeAll, OneLiveCandidate, CancelRuns;
      ghost var was := Rows();
      InvLinked(was);
      InvOneLive(was);
      RetryAgentKeepsInv(was, sid, a, now);
      if a !in agents { return Fail(AGENT_NOT_FOUND); }
      if agents[a].session != sid { return Fail(AGENT_SESSION_MISMATCH); }
      if sessions[sid].lifecycle == ENDED { return Fail(SESSION_ENDED); }
      if agents[a].retired { return Fail(AGENT_RETIRED); }
      StopRuns(sid, Some(agents[a].slot));
      agents := agents[a := agents[a].(errorCount := 0, retryAt := None)];
      SameOneLive(was, Rows());
      WakeOne(a, RECOVERY, None, now);
      r := Pass;
    }

    /** The operator resubmits the participant list. */
    method Reselect(sid: SessionId, expectedEpoch: nat, kept: map<AgentId, Selection>, joined: map<AgentId, Selection>) returns (r: Check)
      requires Valid()
      modifies this
      ensures Valid()
      ensures Did(ApplyMembership(old(Rows()), sid, expectedEpoch, kept, joined), r, old(Rows()))
    {
      hide Inv, CancelRuns, MoveCandidates, OneLiveCandidate, Regrouped, Members, ApplyMembership, Linked;
      ghost var was := Rows();
      InvLinked(was);
      InvOneLive(was);
      ApplyMembershipKeepsInv(was, sid, expectedEpoch, kept, joined);
      r := MembershipProblem(sid, expectedEpoch, kept, joined);
      if r.Fail? { return; }
      MembershipIs(was, sid, expectedEpoch, kept, joined);
      var members := MembersOf(sid);
      var removed := members - kept.Keys;
      if Unchanged(Rows(), kept, removed, joined) { return; }
      RegroupRows(sid, removed, kept, joined);
      RegroupedStays(was, sid, kept, joined);
      SameOneLive(was, Rows());
      Fence(sid, LIVE, DROPPED);
    }

    method MembershipProblem(sid: SessionId, expectedEpoch: nat, kept: map<AgentId, Selection>, joined: map<AgentId, Selection>) returns (r: Check)
      ensures r.Fail? ==> ApplyMembership(Rows(), sid, expectedEpoch, kept, joined) == Reject(r.code)
      ensures r.Pass? ==> sid in sessions && Still(sessions[sid]) && sessions[sid].epoch == expectedEpoch
      ensures r.Pass? ==> kept.Keys <= Members(Rows(), sid) <= agents.Keys && (forall a :: a in kept ==> agents[a].slot == kept[a].slot)
      ensures r.Pass? ==> joined.Keys !! agents.Keys && forall a :: a in joined ==> joined[a].slot in workers
    {
      hide CancelRuns, MoveCandidates, Regrouped, Members;
      if sid !in sessions { return Fail(SESSION_NOT_FOUND); }
      var s := sessions[sid];
      if s.lifecycle == ENDED { return Fail(SESSION_ENDED); }
      if !Still(s) { return Fail(PAUSE_REQUIRED); }
      if s.epoch != expectedEpoch { return Fail(MEMBERSHIP_CHANGED_RELOAD); }
      var members := MembersOf(sid);
      MembersExist(Rows(), sid);
      if !(kept.Keys <= members) || exists a :: a in kept && agents[a].slot != kept[a].slot { return Fail(MEMBER_NOT_CURRENT); }
      if !(joined.Keys !! agents.Keys) { return Fail(PRIMARY_KEY); }
      if exists a :: a in joined && joined[a].slot !in workers { return Fail(UNKNOWN_WORKER_SLOT); }
      r := Pass;
    }

    method RegroupRows(sid: SessionId, removed: set<AgentId>, kept: map<AgentId, Selection>, joined: map<AgentId, Selection>)
      requires sid in sessions && removed == Members(Rows(), sid) - kept.Keys && kept.Keys <= Members(Rows(), sid) <= agents.Keys && joined.Keys !! agents.Keys
      modifies this`sessions, this`agents
      ensures Rows() == Regrouped(old(Rows()), sid, kept, joined)
    {
      hide Members, Reselected;
      ghost var was := Rows();
      var s := sessions[sid];
      sessions := sessions[sid := s.(epoch := s.epoch + 1, revision := s.revision + 1)];
      Retire(removed);
      ghost var retired := agents;
      Redefine(kept);
      RegroupedRows(was, sid, kept, joined, retired, agents);
      JoinAll(sid, joined);
    }

    method Retire(removed: set<AgentId>)
      requires removed <= agents.Keys
      modifies this`agents
      ensures agents == map a | a in old(agents) :: if a in removed then old(agents)[a].(enabled := false, retired := true) else old(agents)[a]
    {
      ghost var was := agents;
      var todo := removed;
      while todo != {}
        invariant todo <= removed && agents.Keys == was.Keys
        invariant forall a :: a in was ==> agents[a] == if a in removed - todo then was[a].(enabled := false, retired := true) else was[a]
        decreases todo
      {
        var a :| a in todo;
        todo := todo - {a};
        agents := agents[a := agents[a].(enabled := false, retired := true)];
      }
    }

    method Redefine(kept: map<AgentId, Selection>)
      requires kept.Keys <= agents.Keys
      modifies this`agents
      ensures agents == map a | a in old(agents) :: if a in kept then Reselected(old(agents)[a], kept[a]) else old(agents)[a]
    {
      ghost var was := agents;
      var todo := kept.Keys;
      while todo != {}
        invariant todo <= kept.Keys && agents.Keys == was.Keys
        invariant forall a :: a in was ==> agents[a] == if a in kept.Keys - todo then Reselected(was[a], kept[a]) else was[a]
        decreases todo
      {
        var a :| a in todo;
        todo := todo - {a};
        var p := kept[a];
        agents := agents[a := agents[a].(enabled := p.enabled, errorCount := if p.newProfile then 0 else agents[a].errorCount,
                                         retryAt := if p.newProfile then None else agents[a].retryAt)];
      }
    }

    // ------------------------------------------------------------ sources

    /** A source appears or changes; was and can are the owners that may read it before and after. */
    method ReviseSource(sid: SessionId, revision: bool, was: set<AgentId>, can: set<AgentId>, now: nat) returns (r: Check)
      requires Valid()
      modifies this
      ensures Linked(old(Rows())) && Valid()
      ensures Did(ApplySource(old(Rows()), sid, revision, was, can, now), r, old(Rows()))
    {
      hide Inv, WakeAll, OneLiveCandidate, Told, SourceFenced;
      ghost var before := Rows();
      InvLinked(before);
      InvOneLive(before);
      ApplySourceKeepsInv(before, sid, revision, was, can, now);
      if sid !in sessions { return Fail(SESSION_NOT_FOUND); }
      if sessions[sid].lifecycle == ENDED { return Fail(SESSION_ENDED); }
      TellOwners(sid, revision, was, can, now);
      r := Pass;
    }

    method TellOwners(sid: SessionId, revision: bool, was: set<AgentId>, can: set<AgentId>, now: nat)
      requires Linked(Rows()) && OneLiveCandidate(Rows())
      modifies this
      ensures var told := Told(old(Rows()), sid, revision, was, can);
        Linked(SourceFenced(old(Rows()), sid, revision, told, was, can)) &&
        Rows() == WakeAll(SourceFenced(old(Rows()), sid, revision, told, was, can), Everyone(told, OTHER), None, now)
    {
      hide WakeAll, OneLiveCandidate, SourceFenced, SourceMove, CancelRuns;
      ghost var before := Rows();
      var todo := set a | a in agents && agents[a].session == sid && !agents[a].retired && ((revision && a in was) || a in can);
      ghost var told, done: set<AgentId> := Told(before, sid, revision, was, can), {};
      assert todo == told;
      FencedNobody(before, sid, revision, was, can);
      WakeNobody(before, None, now);
      while todo != {}
        invariant done !! todo && done + todo == told && Linked(before)
        invariant Linked(Rows()) && OneLiveCandidate(Rows()) && Linked(SourceFenced(before, sid, revision, done, was, can))
        invariant agents.Keys == before.agents.Keys && forall a :: a in agents ==> agents[a].slot == before.agents[a].slot
        invariant Rows() == WakeAll(SourceFenced(before, sid, revision, done, was, can), Everyone(done, OTHER), None, now)
        decreases todo
      {
        var a :| a in todo;
        todo := todo - {a};
        FencedOneMore(before, sid, revision, done, was, can, a, now);
        if revision {
          ghost var at := Rows();
          StopRuns(sid, Some(agents[a].slot));
          SameOneLive(at, Rows());
          ReviseOwn(a, was, can);
        }
        ghost var stopped := Rows();
        WakeOne(a, OTHER, None, now);
        WakeKeepsSlots(stopped, a, OTHER, now);
        done := done + {a};
      }
    }

    /** An owner that lost the source gives its candidate up; any other reviews what it has written. */
    method ReviseOwn(a: AgentId, was: set<AgentId>, can: set<AgentId>)
      requires OneLiveCandidate(Rows()) && Linked(Rows())
      modifies this`candidates
      ensures Rows() == OwnRevised(old(Rows()), a, was, can)
      ensures OneLiveCandidate(Rows()) && Linked(Rows())
    {
      hide OneLiveCandidate, OwnRevised;
      OwnRevisedIs(Rows(), a, was, can);
      OnlyCandidatesRevised(Rows(), a, was, can);
      if a in was && a !in can {
        candidates := map c | c in candidates :: if candidates[c].agent == a && Live(candidates[c].state) then candidates[c].(state := DROPPED) else candidates[c];
      } else {
        candidates := map c | c in candidates ::
          if candidates[c].agent == a && candidates[c].text.Some? && candidates[c].state in {READY, NEEDS_REVIEW, DEFERRED} then candidates[c].(state := NEEDS_REVIEW) else candidates[c];
      }
    }
  }
}
