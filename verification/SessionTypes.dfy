/** Rows of the session store that the run, candidate and commit protocol reads and writes.
    Ids are opaque tokens; time is a natural number of milliseconds. */
module SessionTypes {
  import opened Wrappers

  type SessionId = nat
  type AgentId = nat
  type CandidateId = nat
  type RunId = nat
  type MessageId = nat
  type Slot = nat
  type Text = nat
  type Token = nat

  datatype Settings = Settings(
    debounceMs: nat, directedDebounceMs: nat, maxCoalesceMs: nat, arbitrationMs: nat, postGapMs: nat, agentCooldownMs: nat,
    replyGraceMs: nat, agingMs: nat, reviewTtlMs: nat, leaseMs: nat, contextChars: nat, maxMessages: nat, maxRetries: nat)

  datatype Lifecycle = DRAFT | RUNNING | PAUSED | ENDED

  datatype Session = Session(
    lifecycle: Lifecycle, budgetPaused: bool, userPaused: bool, revision: nat, epoch: nat, messageSeq: nat,
    botCount: nat, windowPostStart: nat, lastPostAt: nat, settings: Settings)

  datatype DeferralKind = UntilTime | UntilMessage | AnswerFrom(who: AgentId)

  datatype Deferral = Deferral(kind: DeferralKind, until: nat)

  datatype Agent = Agent(
    session: SessionId, slot: Slot, enabled: bool, retired: bool, wakeSeq: nat, processedWake: nat, pendingSince: Option<nat>,
    dueAt: Option<nat>, deferral: Option<Deferral>, lastPostAt: nat, errorCount: nat, retryAt: Option<nat>)

  datatype Intent = Intent(replyTo: Option<MessageId>, addressedTo: seq<AgentId>)

  datatype CandidateState = DRAFTING | READY | NEEDS_REVIEW | DEFERRED | COMMITTED | DROPPED

  /** decidedAt is the revision the deciding run saw: the first value of reviewedRevision, kept as a history variable. */
  datatype Candidate = Candidate(
    agent: AgentId, session: SessionId, version: nat, state: CandidateState, text: Option<Text>, intent: Intent,
    decidedAt: nat, reviewedRevision: nat, reviewedWake: nat, firstInterestedAt: nat, notBefore: nat, reviewDueAt: nat)

  datatype RunKind = Decide | Draft | Review | Memory | Observe

  datatype RunState = ACTIVE | CANCELLED | FAILED | DONE

  /** A message at the revision in which the owner was shown it. */
  datatype Ref = Ref(message: MessageId, revision: nat)

  /** The part of a bound request that the protocol reads back: the review delta and the two completeness flags. */
  datatype Context = Context(fromRevision: nat, throughRevision: nat, coverageComplete: bool, delta: seq<Ref>, deliveryComplete: bool)

  datatype Run = Run(
    agent: AgentId, session: SessionId, slot: Slot, workerEpoch: nat, sessionEpoch: nat, kind: RunKind, token: Token,
    state: RunState, wakeSeq: nat, candidate: Option<CandidateId>, candidateVersion: nat, leaseUntil: nat,
    context: Context, resultHash: Option<nat>)
  {
    function SnapshotRevision(): nat { context.throughRevision }
  }

  datatype Message = Message(
    session: SessionId, revision: nat, author: Option<AgentId>, text: Text, replyTo: Option<MessageId>, addressedTo: seq<AgentId>,
    candidate: Option<CandidateId>, deleted: bool, createdAt: nat, sequence: nat, threadRoot: MessageId)

  datatype State = State(
    sessions: map<SessionId, Session>, agents: map<AgentId, Agent>, candidates: map<CandidateId, Candidate>,
    runs: map<RunId, Run>, messages: map<MessageId, Message>, workers: map<Slot, nat>)

  predicate Live(s: CandidateState) { s in {DRAFTING, READY, NEEDS_REVIEW, DEFERRED} }

  datatype Trigger = MESSAGE | DIRECTED | EDIT | RECOVERY | AGENDA | OTHER

  datatype Code =
    | SESSION_NOT_FOUND | AGENT_NOT_FOUND | MESSAGE_NOT_FOUND | RUN_NOT_FOUND | SESSION_ENDED | INVALID_LIFECYCLE | LIMIT_ALREADY_REACHED
    | RUNNING_SESSION_LIMIT | PAUSE_REQUIRED | AGENT_SESSION_MISMATCH | AGENT_RETIRED | BOT_TEXT_IMMUTABLE | INVALID_REPLY_REFERENCE
    | DUPLICATE_ADDRESSEE | INVALID_ADDRESSEE | WORKER_FORBIDDEN | STALE_WORKER | RUN_FORBIDDEN | STALE_RUN | IDEMPOTENCY_CONFLICT
    | MODEL_CALL_NOT_RECORDED | STALE_CANDIDATE | CANDIDATE_ALREADY_EXISTS | CANDIDATE_MISSING | REVIEW_RECONSTRUCTION_REQUIRED
    | STALE_EVIDENCE | INVALID_OUTPUT | INVALID_DEFER_TARGET | MEMBERSHIP_CHANGED_RELOAD | MEMBER_NOT_CURRENT | UNKNOWN_WORKER_SLOT | PRIMARY_KEY | EMPTY_CANDIDATE

  /** A transaction either commits a new state or rolls back with a code. */
  datatype Outcome = Ok(state: State) | Reject(code: Code)
  {
    predicate IsFailure() { Reject? }
    function PropagateFailure(): Outcome requires Reject? { this }
    function Extract(): State requires Ok? { state }
  }

  datatype Check = Pass | Fail(code: Code)
  {
    predicate IsFailure() { Fail? }
    function PropagateFailure(): Outcome requires Fail? { Reject(code) }
  }

  function Ensure(condition: bool, code: Code): Check { if condition then Pass else Fail(code) }
}
