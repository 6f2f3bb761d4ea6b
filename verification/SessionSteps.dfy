/** Every transaction of the session service as a function from state to state.
    A SQL UPDATE over many rows is a map comprehension: all its rows change at once. */
module SessionSteps {
  import opened Wrappers
  import opened Domain
  import opened SessionTypes

  predicate Linked(st: State) { forall a :: a in st.agents ==> st.agents[a].session in st.sessions }

  function Members(st: State, sid: SessionId): set<AgentId> {
    set a | a in st.agents && st.agents[a].session == sid && !st.agents[a].retired
  }

  // ---------------------------------------------------------------- waking an agent

  predicate EndsDeferral(d: Deferral, trigger: Trigger, author: Option<AgentId>, now: nat) {
    || d.until <= now
    || (trigger in {MESSAGE, DIRECTED, EDIT} && (d.kind.UntilMessage? || (d.kind.AnswerFrom? && author == Some(d.kind.who))))
    || trigger in {RECOVERY, AGENDA}
  }

  predicate WakeResumes(a: Agent, trigger: Trigger, author: Option<AgentId>, now: nat) {
    a.deferral.Some? && EndsDeferral(a.deferral.value, trigger, author, now)
  }

  /** One more wake, due when the debounced changes are. */
  function Raised(a: Agent, cfg: Settings, trigger: Trigger, now: nat): Agent {
    var pending := a.wakeSeq > a.processedWake;
    var due := CoalesceDue(if pending then a.pendingSince else None, if pending then a.dueAt else None, now,
                           if trigger == DIRECTED then cfg.directedDebounceMs else cfg.debounceMs, cfg.maxCoalesceMs);
    a.(wakeSeq := a.wakeSeq + 1, pendingSince := Some(due.since), dueAt := Some(if a.deferral.Some? then a.deferral.value.until else due.due))
  }

  function WokenAgent(a: Agent, cfg: Settings, trigger: Trigger, author: Option<AgentId>, now: nat): Agent {
    if !a.enabled then a
    else Raised(if WakeResumes(a, trigger, author, now) then a.(deferral := None, pendingSince := None, dueAt := None) else a, cfg, trigger, now)
  }

  function WokenCandidate(c: Candidate, resumes: bool): Candidate {
    if c.state == DEFERRED && resumes then c.(state := if c.text.Some? then NEEDS_REVIEW else DRAFTING)
    else if c.state == READY then c.(state := NEEDS_REVIEW)
    else c
  }

  /** Wakes each agent of `who` that is enabled, each for its own reason. */
  function WakeAll(st: State, who: map<AgentId, Trigger>, author: Option<AgentId>, now: nat): State
    requires Linked(st)
  {
    st.(agents := map a | a in st.agents ::
          if a in who then WokenAgent(st.agents[a], st.sessions[st.agents[a].session].settings, who[a], author, now) else st.agents[a],
        candidates := map c | c in st.candidates ::
          var a := st.candidates[c].agent;
          if a in who && a in st.agents && st.agents[a].enabled
          then WokenCandidate(st.candidates[c], WakeResumes(st.agents[a], who[a], author, now)) else st.candidates[c])
  }

  function Everyone(who: set<AgentId>, trigger: Trigger): map<AgentId, Trigger> { map a | a in who :: trigger }

  function Wake(st: State, a: AgentId, trigger: Trigger, now: nat): State
    requires Linked(st)
  {
    WakeAll(st, map[a := trigger], None, now)
  }

  // ---------------------------------------------------------------- fences

  predicate InScope(r: Run, sid: SessionId, slot: Option<Slot>) {
    r.state == ACTIVE && r.session == sid && (slot.Some? ==> r.slot == slot.value)
  }

  function CancelRuns(st: State, sid: SessionId, slot: Option<Slot>): State {
    st.(runs := map r | r in st.runs :: if InScope(st.runs[r], sid, slot) then st.runs[r].(state := CANCELLED) else st.runs[r])
  }

  /** UPDATE candidates SET state=to WHERE session_id=sid AND state IN from. */
  function MoveCandidates(st: State, sid: SessionId, from: set<CandidateState>, to: CandidateState): State {
    st.(candidates := map c | c in st.candidates ::
          if st.candidates[c].session == sid && st.candidates[c].state in from then st.candidates[c].(state := to) else st.candidates[c])
  }

  /** The same update restricted to one owner. */
  function MoveOwn(st: State, a: AgentId, from: set<CandidateState>, to: CandidateState): State {
    st.(candidates := map c | c in st.candidates ::
          if st.candidates[c].agent == a && st.candidates[c].state in from then st.candidates[c].(state := to) else st.candidates[c])
  }

  const LIVE: set<CandidateState> := {DRAFTING, READY, NEEDS_REVIEW, DEFERRED}

  function PauseForLimit(st: State, sid: SessionId): State
    requires sid in st.sessions
  {
    var s := st.sessions[sid];
    var paused := st.(sessions := st.sessions[sid := s.(lifecycle := PAUSED, budgetPaused := true, userPaused := false, epoch := s.epoch + 1)]);
    MoveCandidates(CancelRuns(paused, sid, None), sid, {READY}, NEEDS_REVIEW)
  }

  // ---------------------------------------------------------------- operator commands

  function CreateSession(st: State, sid: SessionId, settings: Settings, members: map<AgentId, Slot>): Outcome {
    if sid in st.sessions || !(members.Keys !! st.agents.Keys) then Reject(PRIMARY_KEY) else
    :- Ensure(forall a :: a in members ==> members[a] in st.workers, UNKNOWN_WORKER_SLOT);
    Ok(st.(sessions := st.sessions[sid := Session(DRAFT, false, false, 0, 0, 0, 0, 0, 0, settings)],
           agents := st.agents + (map a | a in members :: NewAgent(sid, members[a], true))))
  }

  function NewAgent(sid: SessionId, slot: Slot, enabled: bool): Agent {
    Agent(sid, slot, enabled, false, 0, 0, None, None, None, 0, 0, None)
  }

  datatype Action = Start | Pause | Resume | End

  predicate Allowed(action: Action, l: Lifecycle) {
    match action
    case Start => l == DRAFT
    case Pause => l == RUNNING || l == PAUSED
    case Resume => l == PAUSED
    case End => l != ENDED
  }

  function RunningElsewhere(st: State, sid: SessionId): set<SessionId> {
    set s | s in st.sessions && s != sid && st.sessions[s].lifecycle == RUNNING
  }

  predicate PostsLeft(s: Session) { s.botCount < s.windowPostStart + s.settings.maxMessages }

  /** budgetOpen says that neither the token, call nor time budget of the window is used up. */
  function Lifecycled(st: State, sid: SessionId, action: Action, budgetOpen: bool, maxRunning: nat, now: nat): Outcome
    requires Linked(st)
  {
    if sid !in st.sessions then Reject(SESSION_NOT_FOUND) else
    var s := st.sessions[sid];
    :- Ensure(Allowed(action, s.lifecycle), INVALID_LIFECYCLE);
    if action == Start || action == Resume then
      :- Ensure(budgetOpen && PostsLeft(s), LIMIT_ALREADY_REACHED);
      :- Ensure(|RunningElsewhere(st, sid)| < maxRunning, RUNNING_SESSION_LIMIT);
      var running := st.(sessions := st.sessions[sid := s.(lifecycle := RUNNING, budgetPaused := false, userPaused := false, epoch := s.epoch + 1)]);
      var fenced := MoveCandidates(CancelRuns(running, sid, None), sid, {READY}, NEEDS_REVIEW);
      Ok(WakeAll(fenced, Everyone(Members(fenced, sid), RECOVERY), None, now))
    else if action == Pause then
      var paused := st.(sessions := st.sessions[sid := s.(lifecycle := PAUSED, userPaused := true, epoch := s.epoch + 1)]);
      Ok(MoveCandidates(CancelRuns(paused, sid, None), sid, {READY}, NEEDS_REVIEW))
    else
      var ended := st.(sessions := st.sessions[sid := s.(lifecycle := ENDED, userPaused := false, epoch := s.epoch + 1)]);
      Ok(MoveCandidates(CancelRuns(ended, sid, None), sid, LIVE, DROPPED))
  }

  predicate Still(s: Session) { s.lifecycle == DRAFT || s.lifecycle == PAUSED }

  function UpdateSettings(st: State, sid: SessionId, settings: Settings): Outcome {
    if sid !in st.sessions then Reject(SESSION_NOT_FOUND) else
    var s := st.sessions[sid];
    :- Ensure(Still(s), PAUSE_REQUIRED);
    Ok(CancelRuns(st.(sessions := st.sessions[sid := s.(settings := settings, epoch := s.epoch + 1)]), sid, None))
  }

  function RenewBudget(st: State, sid: SessionId): Outcome {
    if sid !in st.sessions then Reject(SESSION_NOT_FOUND) else
    var s := st.sessions[sid];
    :- Ensure(Still(s), PAUSE_REQUIRED);
    Ok(CancelRuns(st.(sessions := st.sessions[sid :=
         s.(windowPostStart := s.botCount, budgetPaused := false, userPaused := false, epoch := s.epoch + 1)]), sid, None))
  }

  /** windowOver says that the budget policy renews automatically and its window has ended. */
  predicate RenewsItself(s: Session, windowOver: bool) {
    windowOver && (s.lifecycle == RUNNING || (s.lifecycle == PAUSED && s.budgetPaused && !s.userPaused))
  }

  function RenewAutomatic(st: State, sid: SessionId, windowOver: bool, maxRunning: nat, now: nat): Outcome
    requires Linked(st)
  {
    if sid !in st.sessions then Reject(SESSION_NOT_FOUND) else
    var s := st.sessions[sid];
    if !RenewsItself(s, windowOver) || (s.lifecycle == PAUSED && |RunningElsewhere(st, sid)| >= maxRunning) then Ok(st)
    else
      var cancelled := CancelRuns(st, sid, None);
      var running := cancelled.(sessions := st.sessions[sid :=
        s.(lifecycle := RUNNING, budgetPaused := false, userPaused := false, windowPostStart := s.botCount, epoch := s.epoch + 1)]);
      var fenced := MoveCandidates(running, sid, {READY}, NEEDS_REVIEW);
      Ok(WakeAll(fenced, Everyone(Members(fenced, sid), OTHER), None, now))
  }

  function SetAgentEnabled(st: State, sid: SessionId, a: AgentId, enabled: bool): Outcome {
    if sid !in st.sessions then Reject(SESSION_NOT_FOUND) else
    :- Ensure(a in st.agents, AGENT_NOT_FOUND);
    :- Ensure(st.agents[a].session == sid, AGENT_SESSION_MISMATCH);
    :- Ensure(Still(st.sessions[sid]), PAUSE_REQUIRED);
    :- Ensure(!st.agents[a].retired, AGENT_RETIRED);
    var s := st.sessions[sid];
    var fenced := CancelRuns(st, sid, None).(sessions := st.sessions[sid := s.(epoch := s.epoch + 1)],
                                             agents := st.agents[a := st.agents[a].(enabled := enabled)]);
    Ok(MoveOwn(fenced, a, LIVE, DROPPED))
  }

  datatype Selection = Selection(slot: Slot, enabled: bool, redefined: bool, newProfile: bool)

  function Reselected(a: Agent, p: Selection): Agent {
    a.(enabled := p.enabled, errorCount := if p.newProfile then 0 else a.errorCount, retryAt := if p.newProfile then None else a.retryAt)
  }

  /** The operator resubmits the whole participant list: members not in it are retired, new entries join. */
  function ApplyMembership(st: State, sid: SessionId, expectedEpoch: nat, kept: map<AgentId, Selection>, joined: map<AgentId, Selection>): Outcome {
    if sid !in st.sessions then Reject(SESSION_NOT_FOUND) else
    var s := st.sessions[sid];
    :- Ensure(s.lifecycle != ENDED, SESSION_ENDED);
    :- Ensure(Still(s), PAUSE_REQUIRED);
    :- Ensure(s.epoch == expectedEpoch, MEMBERSHIP_CHANGED_RELOAD);
    :- Ensure(kept.Keys <= Members(st, sid) && forall a :: a in kept ==> st.agents[a].slot == kept[a].slot, MEMBER_NOT_CURRENT);
    :- Ensure(joined.Keys !! st.agents.Keys, PRIMARY_KEY);
    :- Ensure(forall a :: a in joined ==> joined[a].slot in st.workers, UNKNOWN_WORKER_SLOT);
    var removed := Members(st, sid) - kept.Keys;
    if removed == {} && joined == map[] && forall a :: a in kept ==> !kept[a].redefined && kept[a].enabled == st.agents[a].enabled then Ok(st)
    else
      Ok(MoveCandidates(CancelRuns(Regrouped(st, sid, kept, joined), sid, None), sid, LIVE, DROPPED))
  }

  /** The member rows of the session after the change, in a new epoch and at a new revision. */
  function Regrouped(st: State, sid: SessionId, kept: map<AgentId, Selection>, joined: map<AgentId, Selection>): State
    requires sid in st.sessions
  {
    var s := st.sessions[sid];
    var agents := map a | a in st.agents ::
      if a in kept then Reselected(st.agents[a], kept[a])
      else if a in Members(st, sid) then st.agents[a].(enabled := false, retired := true) else st.agents[a];
    st.(sessions := st.sessions[sid := s.(epoch := s.epoch + 1, revision := s.revision + 1)],
        agents := agents + (map a | a in joined :: NewAgent(sid, joined[a].slot, joined[a].enabled)))
  }

  function RetryAgent(st: State, sid: SessionId, a: AgentId, now: nat): Outcome
    requires Linked(st)
  {
    if a !in st.agents then Reject(AGENT_NOT_FOUND) else
    :- Ensure(st.agents[a].session == sid, AGENT_SESSION_MISMATCH);
    :- Ensure(st.sessions[sid].lifecycle != ENDED, SESSION_ENDED);
    :- Ensure(!st.agents[a].retired, AGENT_RETIRED);
    var reset := CancelRuns(st, sid, Some(st.agents[a].slot)).(agents := st.agents[a := st.agents[a].(errorCount := 0, retryAt := None)]);
    Ok(Wake(reset, a, RECOVERY, now))
  }

  /** Every worker and every running session enters a new generation; no run and no readiness survives. */
  function Regenerated(st: State, resume: bool): State {
    st.(
      workers := map w | w in st.workers :: st.workers[w] + 1,
      runs := map r | r in st.runs :: if st.runs[r].state == ACTIVE && st.runs[r].session in st.sessions
                                      then st.runs[r].(state := CANCELLED) else st.runs[r],
      sessions := map s | s in st.sessions ::
        if st.sessions[s].lifecycle != RUNNING then st.sessions[s]
        else st.sessions[s].(epoch := st.sessions[s].epoch + 1, lifecycle := if resume then RUNNING else PAUSED,
                             userPaused := if resume then st.sessions[s].userPaused else false),
      candidates := map c | c in st.candidates ::
        var k := st.candidates[c];
        if k.state == READY && k.session in st.sessions && st.sessions[k.session].lifecycle == RUNNING then k.(state := NEEDS_REVIEW) else k)
  }

  function RunningAgents(st: State): set<AgentId>
    requires Linked(st)
  {
    set a | a in st.agents && !st.agents[a].retired && st.sessions[st.agents[a].session].lifecycle == RUNNING
  }

  function Recover(st: State, resume: bool, now: nat): State
    requires Linked(st)
  {
    var fenced := Regenerated(st, resume);
    if resume then WakeAll(fenced, Everyone(RunningAgents(fenced), RECOVERY), None, now) else fenced
  }

  // ---------------------------------------------------------------- messages

  function IntentProblem(st: State, sid: SessionId, self: Option<AgentId>, intent: Intent): Check {
    if intent.replyTo.Some? && (intent.replyTo.value !in st.messages || st.messages[intent.replyTo.value].session != sid || st.messages[intent.replyTo.value].deleted)
    then Fail(INVALID_REPLY_REFERENCE)
    else if exists i, j :: 0 <= i < j < |intent.addressedTo| && intent.addressedTo[i] == intent.addressedTo[j] then Fail(DUPLICATE_ADDRESSEE)
    else if exists a :: a in intent.addressedTo && a !in st.agents then Fail(AGENT_NOT_FOUND)
    else if exists a :: a in intent.addressedTo && (st.agents[a].session != sid || !st.agents[a].enabled || self == Some(a)) then Fail(INVALID_ADDRESSEE)
    else Pass
  }

  /** The new row, at the next revision and sequence, in the thread of the message it answers. */
  function NewMessage(st: State, sid: SessionId, id: MessageId, author: Option<AgentId>, text: Text, intent: Intent, candidate: Option<CandidateId>, now: nat): Message
    requires sid in st.sessions && IntentProblem(st, sid, author, intent).Pass?
  {
    var s := st.sessions[sid];
    Message(sid, s.revision + 1, author, text, intent.replyTo, intent.addressedTo, candidate, false, now, s.messageSeq + 1,
            if intent.replyTo.Some? then st.messages[intent.replyTo.value].threadRoot else id)
  }

  function NextRevision(s: Session, now: nat): Session {
    s.(revision := s.revision + 1, messageSeq := s.messageSeq + 1, lastPostAt := now, budgetPaused := s.lifecycle == PAUSED && s.budgetPaused)
  }

  function StampAuthor(st: State, sid: SessionId, author: Option<AgentId>, now: nat): map<AgentId, Agent> {
    if author.Some? && author.value in Members(st, sid) then st.agents[author.value := st.agents[author.value].(lastPostAt := now)] else st.agents
  }

  function Inserted(st: State, sid: SessionId, id: MessageId, author: Option<AgentId>, text: Text, intent: Intent, candidate: Option<CandidateId>, now: nat): State
    requires sid in st.sessions && IntentProblem(st, sid, author, intent).Pass?
  {
    st.(sessions := st.sessions[sid := NextRevision(st.sessions[sid], now)],
        messages := st.messages[id := NewMessage(st, sid, id, author, text, intent, candidate, now)],
        agents := StampAuthor(st, sid, author, now))
  }

  /** Everybody but the author hears of a new message; addressees hear that it is for them. */
  function Audience(st: State, sid: SessionId, author: Option<AgentId>, addressedTo: seq<AgentId>): map<AgentId, Trigger> {
    map a | a in Members(st, sid) && author != Some(a) :: if a in addressedTo then DIRECTED else MESSAGE
  }

  function Append(st: State, sid: SessionId, id: MessageId, author: Option<AgentId>, text: Text, intent: Intent, candidate: Option<CandidateId>, now: nat): State
    requires Linked(st) && sid in st.sessions && IntentProblem(st, sid, author, intent).Pass?
  {
    WakeAll(Inserted(st, sid, id, author, text, intent, candidate, now), Audience(st, sid, author, intent.addressedTo), author, now)
  }

  function HumanMessage(st: State, sid: SessionId, id: MessageId, text: Text, intent: Intent, now: nat): Outcome
    requires Linked(st)
  {
    if sid !in st.sessions then Reject(SESSION_NOT_FOUND) else
    :- Ensure(st.sessions[sid].lifecycle != ENDED, SESSION_ENDED);
    :- IntentProblem(st, sid, None, intent);
    :- Ensure(id !in st.messages, PRIMARY_KEY);
    Ok(Append(st, sid, id, None, text, intent, None, now))
  }

  function Edited(st: State, sid: SessionId, id: MessageId, text: Option<Text>): State
    requires sid in st.sessions && id in st.messages
  {
    var s := st.sessions[sid];
    st.(sessions := st.sessions[sid := s.(revision := s.revision + 1)],
        messages := st.messages[id := st.messages[id].(text := text.GetOr(0), deleted := text.None?, revision := s.revision + 1)])
  }

  /** text None deletes the message. */
  function ChangeMessage(st: State, sid: SessionId, id: MessageId, text: Option<Text>, now: nat): Outcome
    requires Linked(st)
  {
    if sid !in st.sessions then Reject(SESSION_NOT_FOUND) else
    :- Ensure(st.sessions[sid].lifecycle != ENDED, SESSION_ENDED);
    :- Ensure(id in st.messages && st.messages[id].session == sid && !st.messages[id].deleted, MESSAGE_NOT_FOUND);
    :- Ensure(text.None? || st.messages[id].author.None?, BOT_TEXT_IMMUTABLE);
    Ok(WakeAll(Edited(st, sid, id, text), Everyone(Members(st, sid), EDIT), None, now))
  }

  /** An owner who lost the source gives its candidate up; everyone else who saw it must review again. */
  function SourceMove(k: Candidate, told: set<AgentId>, was: set<AgentId>, can: set<AgentId>): Candidate {
    if k.agent !in told then k
    else if k.agent in was && k.agent !in can then (if Live(k.state) then k.(state := DROPPED) else k)
    else if k.text.Some? && k.state in {READY, NEEDS_REVIEW, DEFERRED} then k.(state := NEEDS_REVIEW) else k
  }

  /** The owners that hear of a source: those that could read it before a revision or can read it now. */
  function Told(st: State, sid: SessionId, revision: bool, was: set<AgentId>, can: set<AgentId>): set<AgentId> {
    set a | a in Members(st, sid) && ((revision && a in was) || a in can)
  }

  /** What the revision of a source does to the runs and candidates of the owners in `done`. */
  function SourceFenced(st: State, sid: SessionId, revision: bool, done: set<AgentId>, was: set<AgentId>, can: set<AgentId>): State {
    if !revision then st
    else st.(
      runs := map r | r in st.runs ::
        if st.runs[r].state == ACTIVE && st.runs[r].session == sid && exists a :: a in done && a in st.agents && st.agents[a].slot == st.runs[r].slot
        then st.runs[r].(state := CANCELLED) else st.runs[r],
      candidates := map c | c in st.candidates :: SourceMove(st.candidates[c], done, was, can))
  }

  /** A source appears (revision false) or changes. `was` and `can` are the owners allowed to read it before and after. */
  function ApplySource(st: State, sid: SessionId, revision: bool, was: set<AgentId>, can: set<AgentId>, now: nat): Outcome
    requires Linked(st)
  {
    if sid !in st.sessions then Reject(SESSION_NOT_FOUND) else
    :- Ensure(st.sessions[sid].lifecycle != ENDED, SESSION_ENDED);
    var told := Told(st, sid, revision, was, can);
    Ok(WakeAll(SourceFenced(st, sid, revision, told, was, can), Everyone(told, OTHER), None, now))
  }

  // ---------------------------------------------------------------- workers

  function Owners(st: State, slot: Slot): set<AgentId> { set a | a in st.agents && st.agents[a].slot == slot && !st.agents[a].retired }

  function Reregistered(st: State, slot: Slot): State
    requires slot in st.workers
  {
    st.(workers := st.workers[slot := st.workers[slot] + 1],
        runs := map r | r in st.runs ::
          if st.runs[r].state == ACTIVE && st.runs[r].slot == slot && exists a :: a in Owners(st, slot) && st.agents[a].session == st.runs[r].session
          then st.runs[r].(state := CANCELLED) else st.runs[r])
  }

  /** The agents of `who` whose session runs. */
  function InRunning(st: State, who: set<AgentId>): set<AgentId>
    requires Linked(st)
  {
    set a | a in who && a in st.agents && st.sessions[st.agents[a].session].lifecycle == RUNNING
  }

  function RegisterWorker(st: State, slot: Slot, now: nat): Outcome
    requires Linked(st)
  {
    if slot !in st.workers then Reject(WORKER_FORBIDDEN) else
    Ok(WakeAll(Reregistered(st, slot), Everyone(InRunning(st, Owners(st, slot)), RECOVERY), None, now))
  }

  predicate Owns(st: State, slot: Slot, id: RunId, token: Token) {
    id in st.runs && st.runs[id].slot == slot && st.runs[id].token == token
  }

  predicate ValidRun(st: State, slot: Slot, epoch: nat, id: RunId, now: nat)
    requires id in st.runs
  {
    var r := st.runs[id];
    && r.session in st.sessions && r.agent in st.agents
    && r.state == ACTIVE && r.workerEpoch == epoch && r.sessionEpoch == st.sessions[r.session].epoch
    && st.sessions[r.session].lifecycle == RUNNING && st.agents[r.agent].enabled && r.leaseUntil > now
  }

  function Authorize(st: State, slot: Slot, epoch: nat, id: RunId, token: Token, now: nat): Check {
    if id !in st.runs then Fail(RUN_NOT_FOUND)
    else if !Owns(st, slot, id, token) then Fail(RUN_FORBIDDEN)
    else if slot !in st.workers || st.workers[slot] != epoch then Fail(STALE_WORKER)
    else if !ValidRun(st, slot, epoch, id, now) then Fail(STALE_RUN)
    else Pass
  }

  function Heartbeat(st: State, slot: Slot, epoch: nat, id: RunId, token: Token, now: nat): Outcome {
    var verdict := Authorize(st, slot, epoch, id, token, now);
    :- verdict;
    var r := st.runs[id];
    Ok(st.(runs := st.runs[id := r.(leaseUntil := now + st.sessions[r.session].settings.leaseMs)]))
  }

  ghost function LiveCandidate(candidates: map<CandidateId, Candidate>, a: AgentId): Option<CandidateId> {
    if c :| c in candidates && candidates[c].agent == a && Live(candidates[c].state) then Some(c) else None
  }

  /** What the other components report about one agent when its worker asks for work. */
  datatype Prospect = Prospect(mayClaim: bool, pendingInput: bool, memoryTurn: bool, memoryDue: bool, fits: bool, delivered: bool, cost: map<MessageId, nat>)

  ghost function KindFor(st: State, a: AgentId, p: Prospect, now: nat): Option<RunKind>
    requires Linked(st) && a in st.agents
  {
    var row := st.agents[a];
    var c := LiveCandidate(st.candidates, a);
    var holding := row.deferral.Some? || now < row.lastPostAt + st.sessions[row.session].settings.agentCooldownMs;
    var foreground :=
      if p.pendingInput && holding then Some(Observe)
      else if !holding && (row.dueAt.None? || row.dueAt.value <= now) then
        if c.Some? && st.candidates[c.value].state == DRAFTING then Some(Draft)
        else if c.Some? && st.candidates[c.value].state == NEEDS_REVIEW then Some(if st.candidates[c.value].text.Some? then Review else Draft)
        else if c.None? && row.wakeSeq > row.processedWake then Some(Decide)
        else if p.pendingInput then Some(Observe) else None
      else None;
    if p.memoryTurn || (foreground.None? && p.memoryDue) then Some(Memory) else foreground
  }

  predicate Claimable(st: State, a: AgentId, slot: Slot, p: Prospect, now: nat)
    requires Linked(st)
  {
    && a in st.agents && st.agents[a].slot == slot && st.agents[a].enabled
    && st.sessions[st.agents[a].session].lifecycle == RUNNING
    && p.mayClaim && (st.agents[a].retryAt.None? || st.agents[a].retryAt.value <= now)
  }

  /** The owner has something to do. */
  ghost predicate HasWork(st: State, a: AgentId, slot: Slot, p: Prospect, now: nat)
    requires Linked(st)
  {
    Claimable(st, a, slot, p, now) && KindFor(st, a, p, now).Some?
  }

  /** A scan of the listed owners stops at the first that has work and whose input fits; the ones before it with work do not fit. */
  ghost predicate Scanned(st: State, slot: Slot, prospects: AgentId -> Prospect, order: seq<AgentId>, now: nat, overflowed: set<AgentId>, choice: Option<AgentId>)
    requires Linked(st)
  {
    exists n :: 0 <= n <= |order| && StopsAt(st, slot, prospects, order, now, overflowed, n) && choice == if n < |order| then Some(order[n]) else None
  }

  ghost predicate StopsAt(st: State, slot: Slot, prospects: AgentId -> Prospect, order: seq<AgentId>, now: nat, overflowed: set<AgentId>, n: nat)
    requires Linked(st) && n <= |order|
  {
    && (forall a :: a in order[..n] && HasWork(st, a, slot, prospects(a), now) ==> !prospects(a).fits)
    && (forall a :: a in overflowed <==> a in order[..n] && HasWork(st, a, slot, prospects(a), now))
    && (n < |order| ==> HasWork(st, order[n], slot, prospects(order[n]), now) && prospects(order[n]).fits)
  }

  /** Messages of a session whose current revision is later than `from`. */
  function After(st: State, sid: SessionId, from: nat): set<MessageId> {
    set m | m in st.messages && st.messages[m].session == sid && st.messages[m].revision > from
  }

  predicate FirstByRevision(st: State, todo: set<MessageId>, m: MessageId)
    requires forall x :: x in todo ==> x in st.messages
  {
    m in todo && forall x :: x in todo ==> st.messages[m].revision <= st.messages[x].revision
  }

  /** ORDER BY revision. */
  ghost function ByRevision(st: State, todo: set<MessageId>): seq<MessageId>
    requires forall x :: x in todo ==> x in st.messages
    decreases |todo|
  {
    if m :| FirstByRevision(st, todo, m) then [m] + ByRevision(st, todo - {m}) else []
  }

  ghost function Changed(st: State, sid: SessionId, from: nat): seq<MessageId> {
    var all := ByRevision(st, After(st, sid, from));
    if |all| <= 101 then all else all[..101]
  }

  function CostOf(cost: map<MessageId, nat>, m: MessageId): nat { if m in cost then cost[m] else 0 }

  /** How many of the changed rows fit into one request; the first always does. */
  function Cut(rows: seq<MessageId>, cost: map<MessageId, nat>, limit: nat, i: nat, size: nat): (n: nat)
    requires i <= |rows|
    ensures i <= n <= |rows|
    ensures rows != [] && i == 0 ==> n > 0
    ensures i <= 100 ==> n <= 100
    decreases |rows| - i
  {
    if i == |rows| || (i > 0 && (i >= 100 || 3 * (size + CostOf(cost, rows[i])) > limit)) then i
    else Cut(rows, cost, limit, i + 1, size + CostOf(cost, rows[i]))
  }

  predicate AllStored(st: State, rows: seq<MessageId>) { forall i :: 0 <= i < |rows| ==> rows[i] in st.messages }

  function Refs(st: State, rows: seq<MessageId>): seq<Ref>
    requires AllStored(st, rows)
  {
    seq(|rows|, i requires 0 <= i < |rows| => Ref(rows[i], st.messages[rows[i]].revision))
  }

  lemma {:induction false} ByRevisionKeepsRows(st: State, todo: set<MessageId>)
    requires forall x :: x in todo ==> x in st.messages
    ensures forall m :: m in ByRevision(st, todo) <==> m in todo
    ensures forall i, j :: 0 <= i < j < |ByRevision(st, todo)| ==>
      ByRevision(st, todo)[i] in st.messages && ByRevision(st, todo)[j] in st.messages &&
      st.messages[ByRevision(st, todo)[i]].revision <= st.messages[ByRevision(st, todo)[j]].revision
    ensures forall i, j :: 0 <= i < j < |ByRevision(st, todo)| ==> ByRevision(st, todo)[i] != ByRevision(st, todo)[j]
    decreases |todo|
  {
    if todo != {} {
      FirstExists(st, todo);
      var m := ByRevision(st, todo)[0];
      assert FirstByRevision(st, todo, m);
      ByRevisionKeepsRows(st, todo - {m});
      assert ByRevision(st, todo) == [m] + ByRevision(st, todo - {m});
      forall x ensures x in ByRevision(st, todo) <==> x in todo {
        assert x in ByRevision(st, todo) <==> x == m || x in ByRevision(st, todo - {m});
      }
    } else {
      assert ByRevision(st, todo) == [];
    }
  }

  lemma {:induction false} FirstExists(st: State, todo: set<MessageId>)
    requires todo != {} && forall x :: x in todo ==> x in st.messages
    ensures exists m :: FirstByRevision(st, todo, m)
    decreases |todo|
  {
    var x :| x in todo;
    if todo == {x} {
      assert FirstByRevision(st, todo, x);
    } else {
      FirstExists(st, todo - {x});
      var m :| FirstByRevision(st, todo - {x}, m);
      if st.messages[x].revision < st.messages[m].revision { assert FirstByRevision(st, todo, x); } else { assert FirstByRevision(st, todo, m); }
    }
  }

  /** The bound request of a draft or review: the unread changes since the candidate's last review, cut to size. */
  ghost function CandidateContext(st: State, c: Candidate, p: Prospect): Context
    requires c.session in st.sessions
  {
    var s := st.sessions[c.session];
    var rows := Changed(st, c.session, c.reviewedRevision);
    var n := Cut(rows, p.cost, s.settings.contextChars, 0, 0);
    ByRevisionKeepsRows(st, After(st, c.session, c.reviewedRevision));
    var delta := Refs(st, rows[..n]);
    var complete := n == |rows|;
    Context(c.reviewedRevision, if complete then s.revision else delta[n - 1].revision, complete && p.delivered, delta, p.delivered)
  }

  function PlainContext(s: Session, p: Prospect): Context { Context(s.revision, s.revision, true, [], p.delivered) }

  ghost function ActiveRun(st: State, slot: Slot): Option<RunId> {
    if r :| r in st.runs && st.runs[r].state == ACTIVE && st.runs[r].slot == slot then Some(r) else None
  }

  /** A worker that asks again gets its live run back; a run whose inputs went stale is replaced. */
  ghost function DropStaleRun(st: State, slot: Slot, now: nat): State
    requires Linked(st)
    ensures Linked(DropStaleRun(st, slot, now))
  {
    var previous := ActiveRun(st, slot);
    if previous.None? then st
    else Wake(CancelRuns(st, st.runs[previous.value].session, Some(slot)), st.runs[previous.value].agent, OTHER, now)
  }

  /** `oldReusable` says that the inputs of the slot's live run still hold. `overflowed` are the owners whose mandatory
      input did not fit; `choice` is the first owner of the slot with something to do that does fit. */
  ghost function Claim(st: State, slot: Slot, epoch: nat, oldReusable: bool, overflowed: set<AgentId>, choice: Option<AgentId>, p: Prospect,
                       id: RunId, token: Token, now: nat): Outcome
    requires Linked(st)
  {
    if slot !in st.workers || st.workers[slot] != epoch then Reject(STALE_WORKER) else
    if ActiveRun(st, slot).Some? && oldReusable then Ok(st)
    else
      StartRun(GiveUp(DropStaleRun(st, slot, now), slot, overflowed), slot, epoch, overflowed, choice, p, id, token, now)
  }

  /** An owner whose mandatory input does not fit waits for the operator. */
  function GiveUp(st: State, slot: Slot, overflowed: set<AgentId>): State
    requires Linked(st)
    ensures Linked(GiveUp(st, slot, overflowed))
  {
    st.(agents := map a | a in st.agents ::
      if a in overflowed && st.agents[a].slot == slot && st.agents[a].enabled
      then st.agents[a].(errorCount := st.sessions[st.agents[a].session].settings.maxRetries + 1, retryAt := None) else st.agents[a])
  }

  ghost function StartRun(st: State, slot: Slot, epoch: nat, overflowed: set<AgentId>, choice: Option<AgentId>, p: Prospect, id: RunId, token: Token, now: nat): Outcome
    requires Linked(st)
  {
    if choice.None? || choice.value in overflowed || !Claimable(st, choice.value, slot, p, now) then Ok(st)
    else
      var a := choice.value;
      var wanted := KindFor(st, a, p, now);
      if wanted.None? then Ok(st)
      else
        :- Ensure(id !in st.runs, PRIMARY_KEY);
        var kind := if wanted.value == Decide && !p.delivered then Observe else wanted.value;
        Ok(st.(runs := st.runs[id := NewRun(st, a, kind, p, epoch, token, now)]))
  }

  ghost function NewRun(st: State, a: AgentId, kind: RunKind, p: Prospect, epoch: nat, token: Token, now: nat): Run
    requires Linked(st) && a in st.agents
  {
    var row := st.agents[a];
    var s := st.sessions[row.session];
    var c := if kind == Memory || kind == Observe then None else LiveCandidate(st.candidates, a);
    var context := if c.Some? && st.candidates[c.value].session in st.sessions then CandidateContext(st, st.candidates[c.value], p) else PlainContext(s, p);
    Run(a, row.session, row.slot, epoch, s.epoch, kind, token, ACTIVE, row.wakeSeq, c, if c.Some? then st.candidates[c.value].version else 0,
        now + s.settings.leaseMs, context, None)
  }

  // ---------------------------------------------------------------- results

  datatype Output =
    | Observed | Speak(intent: Intent) | Wait(kind: DeferralKind, afterMs: nat) | Abstain
    | Drafted(text: Text) | Withdraw
    | Keep | Rewrite(text: Text, intent: Intent)
    | Remembered(touched: bool)

  predicate Fits(kind: RunKind, out: Output) {
    match kind
    case Observe => out.Observed?
    case Decide => out.Speak? || out.Wait? || out.Abstain?
    case Draft => out.Drafted? || out.Withdraw?
    case Review => out.Keep? || out.Rewrite? || out.Wait? || out.Withdraw?
    case Memory => out.Remembered?
  }

  /** What the rest of the same transaction reports. `accepted` false stands for any later check that rolls it back. */
  datatype Verdict = Verdict(callRecorded: bool, inputsCurrent: bool, accepted: bool, privateChanged: bool, jitter: nat, newId: CandidateId, digest: nat)

  ghost function DeferAgent(st: State, a: AgentId, kind: DeferralKind, afterMs: nat, now: nat): Outcome
    requires a in st.agents
  {
    if kind.AnswerFrom? && kind.who !in st.agents then Reject(AGENT_NOT_FOUND)
    else if kind.AnswerFrom? && (st.agents[kind.who].session != st.agents[a].session || kind.who == a) then Reject(INVALID_DEFER_TARGET)
    else
      var until := now + afterMs;
      var waiting := st.(agents := st.agents[a := st.agents[a].(deferral := Some(Deferral(kind, until)), dueAt := Some(until))]);
      Ok(MoveOwn(waiting, a, LIVE, DEFERRED))
  }

  predicate UpToDate(st: State, r: Run, v: Verdict)
    requires r.session in st.sessions && r.agent in st.agents
  {
    && r.SnapshotRevision() == st.sessions[r.session].revision && r.wakeSeq == st.agents[r.agent].wakeSeq
    && r.context.deliveryComplete && v.inputsCurrent
  }

  function Reviewed(c: Candidate, r: Run, text: Option<Text>, intent: Intent, ready: bool, notBefore: nat, reviewDueAt: nat): Candidate {
    c.(text := text, intent := intent, version := c.version + 1, state := if ready then READY else NEEDS_REVIEW,
       reviewedRevision := r.SnapshotRevision(), reviewedWake := r.wakeSeq, notBefore := notBefore, reviewDueAt := reviewDueAt)
  }

  /** The part of completeRun that depends on the model's answer. */
  ghost function ApplyOutput(st: State, r: Run, out: Output, v: Verdict, now: nat): Outcome
    requires r.session in st.sessions && r.agent in st.agents
    requires r.candidate.Some? ==> r.candidate.value in st.candidates
  {
    var s, a := st.sessions[r.session], st.agents[r.agent];
    var notBefore := Max(now + s.settings.arbitrationMs + v.jitter, a.lastPostAt + s.settings.agentCooldownMs);
    var due := now + s.settings.reviewTtlMs;
    var ready := UpToDate(st, r, v);
    match r.kind
    case Observe => Ok(st)
    case Memory => Ok(if out.Remembered? && out.touched then MoveOwn(st, r.agent, {READY}, NEEDS_REVIEW) else st)
    case Decide =>
      if out.Speak? then
        :- IntentProblem(st, r.session, Some(r.agent), out.intent);
        :- Ensure(LiveCandidate(st.candidates, r.agent).None?, CANDIDATE_ALREADY_EXISTS);
        :- Ensure(v.newId !in st.candidates, PRIMARY_KEY);
        Ok(st.(candidates := st.candidates[v.newId := Candidate(r.agent, r.session, 1, DRAFTING, None, out.intent,
                 r.SnapshotRevision(), r.SnapshotRevision(), r.wakeSeq, now, notBefore, due)]))
      else if out.Wait? then DeferAgent(st, r.agent, out.kind, out.afterMs, now)
      else Ok(st)
    case Draft =>
      :- Ensure(r.candidate.Some?, CANDIDATE_MISSING);
      var id, c := r.candidate.value, st.candidates[r.candidate.value];
      if out.Drafted? then Ok(st.(candidates := st.candidates[id := Reviewed(c, r, Some(out.text), c.intent, ready, notBefore, due)]))
      else Ok(st.(candidates := st.candidates[id := c.(state := DROPPED)]))
    case Review =>
      :- Ensure(r.candidate.Some?, CANDIDATE_MISSING);
      var id, c := r.candidate.value, st.candidates[r.candidate.value];
      :- Ensure(r.context.coverageComplete || !out.Keep?, REVIEW_RECONSTRUCTION_REQUIRED);
      if out.Wait? then DeferAgent(st, r.agent, out.kind, out.afterMs, now)
      else if out.Keep? then Ok(st.(candidates := st.candidates[id := Reviewed(c, r, c.text, c.intent, ready, notBefore, due)]))
      else if out.Rewrite? then
        :- IntentProblem(st, r.session, Some(r.agent), out.intent);
        Ok(st.(candidates := st.candidates[id := Reviewed(c, r, Some(out.text), out.intent, ready, notBefore, due)]))
      else Ok(st.(candidates := st.candidates[id := c.(state := DROPPED)]))
  }

  predicate Foreground(kind: RunKind) { kind == Decide || kind == Draft || kind == Review }

  ghost function Settled(st: State, r: Run, now: nat): Agent
    requires r.agent in st.agents
  {
    var a := st.agents[r.agent];
    var processed := if Foreground(r.kind) && r.context.deliveryComplete then Max(a.processedWake, r.wakeSeq) else a.processedWake;
    var c := LiveCandidate(st.candidates, r.agent);
    var due := if a.deferral.Some? then a.dueAt
               else if c.Some? && st.candidates[c.value].state != READY then Some(now)
               else if a.wakeSeq > processed then Some(a.dueAt.GetOr(now)) else None;
    a.(processedWake := processed, errorCount := 0, retryAt := None, dueAt := due,
       pendingSince := if a.wakeSeq <= processed then None else a.pendingSince)
  }

  ghost function CompleteRun(st: State, slot: Slot, epoch: nat, id: RunId, token: Token, out: Output, v: Verdict, now: nat): Outcome {
    if id !in st.runs then Reject(RUN_NOT_FOUND) else
    :- Ensure(Owns(st, slot, id, token), RUN_FORBIDDEN);
    :- Ensure(Fits(st.runs[id].kind, out), INVALID_OUTPUT);
    var r := st.runs[id];
    if r.state == DONE then
      :- Ensure(r.resultHash == Some(v.digest), IDEMPOTENCY_CONFLICT);
      Ok(st)
    else
      :- Authorize(st, slot, epoch, id, token, now);
      :- Ensure(v.callRecorded, MODEL_CALL_NOT_RECORDED);
      :- Ensure(r.candidate.Some? ==> r.candidate.value in st.candidates && st.candidates[r.candidate.value].version == r.candidateVersion
                && st.candidates[r.candidate.value].agent == r.agent && Live(st.candidates[r.candidate.value].state), STALE_CANDIDATE);
      var applied :- ApplyOutput(Finished(st, id, v.digest), r, out, v, now);
      :- Ensure(v.accepted, STALE_EVIDENCE);
      var reviewed := if v.privateChanged && !Foreground(r.kind) then MoveOwn(applied, r.agent, {READY}, NEEDS_REVIEW) else applied;
      Ok(reviewed.(agents := if r.agent in reviewed.agents then reviewed.agents[r.agent := Settled(reviewed, r, now)] else reviewed.agents))
  }

  function Finished(st: State, id: RunId, digest: nat): State
    requires id in st.runs
  {
    st.(runs := st.runs[id := st.runs[id].(state := DONE, resultHash := Some(digest))])
  }

  function FailRun(st: State, slot: Slot, epoch: nat, id: RunId, token: Token, reusable: bool, providerRetryAt: nat, now: nat): Outcome
    requires Linked(st)
  {
    if id !in st.runs then Reject(RUN_NOT_FOUND) else
    :- Ensure(Owns(st, slot, id, token), RUN_FORBIDDEN);
    if st.runs[id].state == FAILED then Ok(st)
    else
      :- Authorize(st, slot, epoch, id, token, now);
      var r := st.runs[id];
      if !reusable then Ok(Wake(CancelRuns(st, r.session, Some(slot)), r.agent, OTHER, now))
      else
        var a := st.agents[r.agent];
        Ok(st.(runs := st.runs[id := r.(state := FAILED)],
               agents := st.agents[r.agent := a.(errorCount := a.errorCount + 1, wakeSeq := a.wakeSeq + 1,
                                                 retryAt := Some(Max(now + RetryDelay(a.errorCount + 1), providerRetryAt)))]))
  }

  // ---------------------------------------------------------------- the clock

  /** The runs in `done` are cancelled. */
  function Lapsed(st: State, done: set<RunId>): State {
    st.(runs := map r | r in st.runs :: if r in done then st.runs[r].(state := CANCELLED) else st.runs[r])
  }

  function LapsedOwners(st: State, done: set<RunId>): set<AgentId> {
    set r | r in done && r in st.runs && st.runs[r].session in st.sessions && st.sessions[st.runs[r].session].lifecycle == RUNNING :: st.runs[r].agent
  }

  function Expired(st: State, now: nat): set<RunId> { set r | r in st.runs && st.runs[r].state == ACTIVE && st.runs[r].leaseUntil <= now }

  function ExpireLeases(st: State, now: nat): State
    requires Linked(st)
  {
    WakeAll(Lapsed(st, Expired(st, now)), Everyone(LapsedOwners(st, Expired(st, now)), RECOVERY), None, now)
  }

  function StaleReady(st: State, a: AgentId, now: nat): State
    requires Linked(st) && a in st.agents
  {
    st.(candidates := map c | c in st.candidates ::
      var k := st.candidates[c];
      if k.agent == a && k.state == READY &&
         (k.reviewDueAt <= now || k.reviewedRevision != st.sessions[st.agents[a].session].revision || k.reviewedWake != st.agents[a].wakeSeq)
      then k.(state := NEEDS_REVIEW) else k)
  }

  predicate Busy(st: State, a: AgentId) {
    || (exists c :: c in st.candidates && st.candidates[c].agent == a && Live(st.candidates[c].state))
    || (exists r :: r in st.runs && st.runs[r].agent == a && st.runs[r].state == ACTIVE)
  }

  /** One enabled agent's part of a tick. `agenda` and `idle` are the decisions of the agenda and of the idle and self-wake timers. */
  function TickAgent(st: State, a: AgentId, agenda: bool, idle: bool, now: nat): Outcome
    requires Linked(st)
  {
    if a !in st.agents then Reject(AGENT_NOT_FOUND) else
    if !st.agents[a].enabled || st.agents[a].retired || st.sessions[st.agents[a].session].lifecycle != RUNNING then Ok(st)
    else
      var one := if agenda then Wake(st, a, AGENDA, now) else st;
      var two := if one.agents[a].deferral.Some? && one.agents[a].deferral.value.until <= now then Wake(one, a, OTHER, now) else one;
      var three := StaleReady(two, a, now);
      var row := three.agents[a];
      Ok(if idle && !Busy(three, a) && row.deferral.None? && row.wakeSeq == row.processedWake && row.errorCount == 0 then Wake(three, a, OTHER, now) else three)
  }

  function BudgetStop(st: State, sid: SessionId): Outcome {
    if sid !in st.sessions then Reject(SESSION_NOT_FOUND) else
    Ok(if st.sessions[sid].lifecycle == RUNNING then PauseForLimit(st, sid) else st)
  }

  predicate IsLatest(st: State, sid: SessionId, m: MessageId) {
    && m in st.messages && st.messages[m].session == sid && !st.messages[m].deleted
    && forall x :: x in st.messages && st.messages[x].session == sid && !st.messages[x].deleted ==> st.messages[x].sequence <= st.messages[m].sequence
  }

  ghost function Latest(st: State, sid: SessionId): Option<MessageId> {
    if m :| IsLatest(st, sid, m) then Some(m) else None
  }

  ghost function Round(st: State, sid: SessionId, now: nat): Arbitration
    requires sid in st.sessions
  {
    var s, latest := st.sessions[sid], Latest(st, sid);
    Arbitration(s.revision, now, s.settings.agingMs, if latest.Some? then (set a | a in st.messages[latest.value].addressedTo) else {},
                if latest.Some? then st.messages[latest.value].createdAt + s.settings.replyGraceMs else 0)
  }

  predicate Waiting(st: State, sid: SessionId, c: CandidateId) {
    c in st.candidates && st.candidates[c].session == sid && st.candidates[c].state == READY && st.candidates[c].agent in st.agents
  }

  function Row(st: State, c: CandidateId, targets: set<AgentId>): Eligible
    requires c in st.candidates && st.candidates[c].agent in st.agents
  {
    var k := st.candidates[c];
    var a := st.agents[k.agent];
    Eligible(c, k.agent, a.enabled && k.state == READY, k.reviewedRevision, k.reviewedWake, a.wakeSeq, k.firstInterestedAt, k.notBefore, k.agent in targets)
  }

  ghost predicate IsPick(st: State, sid: SessionId, now: nat, c: CandidateId)
    requires sid in st.sessions
  {
    var round := Round(st, sid, now);
    && Waiting(st, sid, c) && Publishable(Row(st, c, round.graceTargets), round)
    && forall d :: Waiting(st, sid, d) && Publishable(Row(st, d, round.graceTargets), round) ==> !Before(Row(st, d, round.graceTargets), Row(st, c, round.graceTargets), round)
  }

  ghost function Pick(st: State, sid: SessionId, now: nat): Option<CandidateId>
    requires sid in st.sessions
  {
    if c :| IsPick(st, sid, now, c) then Some(c) else None
  }

  function Publish(st: State, sid: SessionId, c: CandidateId, id: MessageId, now: nat): State
    requires Linked(st) && sid in st.sessions && c in st.candidates && st.candidates[c].text.Some?
    requires IntentProblem(st, sid, Some(st.candidates[c].agent), st.candidates[c].intent).Pass?
  {
    var k := st.candidates[c];
    var posted := Append(st, sid, id, Some(k.agent), k.text.value, k.intent, Some(c), now);
    posted.(candidates := posted.candidates[c := posted.candidates[c].(state := COMMITTED)],
            sessions := posted.sessions[sid := posted.sessions[sid].(botCount := posted.sessions[sid].botCount + 1)])
  }

  /** `budgetExceeded` covers tokens, calls and time; `bindingCurrent` says that the candidate was reviewed under the
      current private state and identity. */
  ghost function CommitOne(st: State, sid: SessionId, budgetExceeded: bool, bindingCurrent: bool, id: MessageId, now: nat): Outcome
    requires Linked(st)
  {
    if sid !in st.sessions then Reject(SESSION_NOT_FOUND) else
    var s := st.sessions[sid];
    if s.lifecycle != RUNNING then Ok(st)
    else if budgetExceeded || !PostsLeft(s) then Ok(PauseForLimit(st, sid))
    else if now < s.lastPostAt + s.settings.postGapMs then Ok(st)
    else
      var pick := Pick(st, sid, now);
      if pick.None? then Ok(st)
      else
        var c := pick.value;
        var k := st.candidates[c];
        if k.reviewDueAt <= now || !bindingCurrent then Ok(st.(candidates := st.candidates[c := k.(state := NEEDS_REVIEW)]))
        else
          :- Ensure(k.text.Some?, EMPTY_CANDIDATE);
          if IntentProblem(st, sid, Some(k.agent), k.intent).Fail? then Ok(st.(candidates := st.candidates[c := k.(state := NEEDS_REVIEW)]))
          else
            :- Ensure(id !in st.messages, PRIMARY_KEY);
            var posted := Publish(st, sid, c, id, now);
            Ok(if PostsLeft(posted.sessions[sid]) then posted else PauseForLimit(posted, sid))
  }
}
