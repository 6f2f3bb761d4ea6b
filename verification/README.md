# A verified model of the multi-agent session core

The repository runs chat sessions in which several model-driven agents and one human operator talk to each other. Its core
is a transactional service over SQLite tables. This project models that core and the protocols around it in Dafny and proves
what they are for: nothing is published against a history its author has not reviewed, no stale worker changes anything, no
contradiction in an agent's memory stays unmarked, nothing is delivered twice or skipped, a journal rebuilds exactly what it
recorded, tokens and provider slots are conserved, and no draft is sent twice or lost.

`dafny verify dfyconfig.toml` checks everything.

## How it is organised

Every stateful component appears twice. A *specification* gives each transaction as a function on the rows (`SessionSteps`,
`Ledger`, `PrivateState`, `InputWindows`, `Journal`, `Replay`, `Budget`, `ProviderState`, `Agenda`, `Drafts`, `Pages`). A
*class* performs the same transaction the way the source does, with ordered updates and loops over rows, and its methods are
proved to end in the state, the answer and the refusal code of the specification (`SessionService.Service`,
`MemoryLedger.Tables`, `PrivateStates.Table`, `AgentInputs.Inputs`, `Journal.Database`, `Replay.Replay`, `Budget.SessionBudget`,
`ProviderState.Providers`, `Agenda.AgentAgenda`, `DraftController`, `ArchiveSession.Archive`). The theorems are about every
sequence of transactions of the specification, and so hold of the classes.

| modules | what they hold |
|---|---|
| Wrappers, Domain | options; debouncing and arbitration |
| SessionTypes, SessionSteps | rows of the session core and its 21 transactions |
| SessionInvariant, SessionFences, SessionPublishing, SessionResults | the global invariant and its proof, transaction by transaction |
| SessionGrowth | what no transaction takes back |
| SessionHistory, SessionArbitration, SessionWakes, SessionProgress | arbitrary interleavings of all transactions, and the theorems about them |
| SessionExample, LedgerExample, JournalExample, DraftExample | concrete histories that show what can happen |
| SessionTables, SessionService | the service with its loops, and the lemmas that let them be taken one row at a time |
| Ledger, LedgerProofs, Derivation, Reconciliation, MemoryLedger | memories, evidence, derivation, conflict, reconciliation and invalidation |
| PrivateState, PrivateStates | working state that cites messages, sources and memories by version |
| InputWindows, InputProofs, InputDelivery, AgentInputs, SourceChunks | bounded input windows, their independent checker, delivery; long sources in parts |
| Journal, JournalScopes, Replay, JournalReplay | change triggers that look up the session of a row, and the replay that rebuilds the rows of one session |
| Budget, ProviderState, Agenda | token envelopes, circuit breaker, scheduled opportunities |
| Drafts, DraftConflicts, DraftController | outbox of the browser: concurrent pages, lost requests, lost responses, conflicts |
| Pages, ArchiveSession | pages fenced by a high-water mark, and the message cache above them |
| Canonical, ThreadRoots | the canonical printer behind receipts; three ways to find the root of a thread |

In the session core a state holds all sessions, agents, candidates, runs, messages and workers. A step is one committed or
rolled-back transaction of the operator, a person, a worker or the clock. Whatever no caller controls is an arbitrary argument
of the step: the time, fresh ids and tokens, verdicts of the budget and of input validation, timers, and the model's answer.
`SessionHistory.Reached` is the state after any sequence of steps from a fresh store.

The invariant behind publication has three parts. Well-formed rows and exclusion: one live candidate per owner, one live run
per slot. Fences: a READY candidate stands at the present revision of its session, and a live run carries the present epochs.
Coverage: for every candidate, the runs completed for it have together listed every message changed between its decision and
its last review. Coverage is what makes `NothingUnread` a statement about content and not about counters.

## Main results

- Publication: `SessionHistory.NothingUnread`, `NothingUnreadEver`, `PublicationFencing`; `SessionProgress.ReviewsEndReady`;
  `SessionArbitration.SomebodyIsServed`, `AgedIsNotOvertaken`.
- Fencing: `SessionHistory.LiveRunsAreCurrent`, `ResultTakesEffectOnce`, `OldGenerationsArePowerless`, `DecisionsAreFinal`, `PauseHolds`.
- Memory: `LedgerProofs.EveryClashIsContested`, `NoResurrection`, `EditInvalidatesExactly`; `Derivation.DerivedFallsWithItsSource`;
  `Reconciliation.EquivalentsAreReconciled`; `PrivateState.EntriesStayFresh`.
- Input: `InputProofs.ProducerMeetsChecker`; `InputDelivery.ExactlyOnce`, `DrainEnds`, `MemoryGetsItsShare`.
- Journal: `JournalReplay.ReplayRebuildsTheSession`, `ReplayIsExactUnlessStranded`; `JournalScopes.StrandsExactly`; `Replay.SwapUndoes`.
- Resources: `Budget.TokensAreConserved`, `ScopeTokensAreConserved`, `SettlementIsExact`; `ProviderState.CapHolds`, `OnlyTheProbeCloses`,
  `SecondNeedsBreach`; `Agenda.OnePlanPerCondition`, `AnnouncedMatchesStand`, `WakesAreRare`.
- Browser: `Drafts.SubmittedAtMostOnce`, `LaterEditsSurvive`; `DraftConflicts.ConflictLastsExactly`; `Pages.PagesCoverTheFence`; `ArchiveSession.OrderOfDeliveriesIsIrrelevant`,
  `Archive.Synchronize`.
- Texts and threads: `Canonical.TextsAreFaithful`; `ThreadRoots.RootsAgree`, `WalkAndQueryAgree`.

## Where the code and its documentation differ

The model follows the code. In four places the code does less than a reader of the documentation expects. For each there is
a concrete case and the exact condition.

- `docs/AGENT_LOOP.md:21` says that a ready candidate matches the current wake. A failure report raises the wake without
  demoting the candidate (`packages/session-service/index.ts:656`): `SessionExample.FailureCanLeaveBehind`. No other step does
  so: `SessionWakes.OnlyFailuresLeaveBehind`. Publication is not affected, because the commit compares the wakes again:
  `SessionHistory.NothingUnread`.
- `docs/PROVIDER_MANAGEMENT.md:23` promises one probe at a time. Every counted error clears the recorded probe
  (`packages/provider-state/index.ts:47-48`): a late one of another call (`ProviderState.TwoCallsInAnOpenCircuit`), the probe's
  own timeout, after which the provider may still be working (`TimeoutAdmitsSecond`), and the CONFIG_ERROR of a failed run, which
  needs no call at all (`packages/session-service/index.ts:654`, `MisconfiguredRunAdmitsSecond`). Without such a report no second
  call ever joins a probe that may still run (`SecondNeedsBreach`). After one that does not block the scope it is admitted if and
  only if the cooldown is over and the cap has room (`BreachAdmits`); after one that does, only behind the operator's request
  (`BlockingNeedsTheOperator`), and then if and only if the cap has room (`OperatorAdmits`).
- `docs/MEMORY_PROVENANCE_AND_RECALL.md:9` says that equivalent interpretations are reconciled into one current record. A
  `correct` that is no true correction ends with its targets in CONFLICT, also those that say the same
  (`packages/session-service/memory-ledger.ts:139-142`): `LedgerExample.EquivalentsCanStayApart`. An accepted change leaves a
  second record that says the same if and only if it is such a `correct` and one of its targets says the same and does not fall
  with another memory: `Reconciliation.EquivalentsAreReconciled`.
- `docs/DURABLE_DRAFTS.md:15` says that a conflict keeps the unsaved text visible and requires an explicit reload. The text does
  stay (`DraftConflicts.ConflictKeepsText`). The row's error, under whatever label, lasts until a reload if and only if no
  acknowledgement of the page reads the row (`ConflictLastsExactly`): any acknowledgement, with or without a receipt, takes the stored row over
  (`apps/web/src/draft-controller.ts:60-64`), after which one typed draft replaces the other page's and clears the error
  (`AcknowledgingEndsIt`, `DraftExample.OlderAcknowledgementOverwrites`). With a receipt for the submission that the row shows it
  clears the error at once (`AckForgetsConflict`), and the page shows one text and sends another:
  `DraftExample.ConflictCanBeForgotten`.

Four promises hold under a condition that is stated exactly. The exports of a journal replay to the rows of their session if and
only if no statement deletes, rekeys or moves a row that other rows have their session from, as `agent_instances` is for
`memories` (`JournalReplay.ReplayIsExactUnlessStranded`, with the moved parent in `JournalExample.MovedParentIsNotReplayed`). The
reader's cache ends with the latest content of a message if and only if that content arrived while the message was known
(`ArchiveSession.HoldsTheLatestExactly`, with the dropped deletion in `EarlyDeletionIsDropped`). The reader's walk and the
recursive query for thread roots agree if and only if no chain of replies ends below an unknown message
(`ThreadRoots.WalkAndQueryAgree`), which the service guarantees (`ThreadRoots.RootsAgree`). Canonical texts are faithful on keys
that the comparator orders (`Canonical.TextsAreFaithful`), while two keys that it does not separate give one value two texts
(`Canonical.UnorderedKeysHaveTwoTexts`).

## Model

| member | source | states |
|---|---|---|
| SessionHistory.NothingUnread | packages/session-service/index.ts:661-689 | In every reachable state only a commit publishes; the published candidate was READY, its enabled author reviewed the present revision in its present wake, the message takes the next revision with the reviewed text, and completed runs of this very candidate showed it every message of the session changed after the run that decided to speak |
| SessionHistory.NothingUnreadEver | packages/session-service/index.ts:427-436 | In every reachable state, every message with a revision between the decision behind an undeleted publication and the publication itself was listed, at that revision, by a completed run of the published candidate |
| SessionHistory.PublicationFencing | packages/session-service/index.ts:661-689 | In every reachable state READY implies an enabled, unretired author and `reviewed_revision` equal to the session revision; every bot message names a COMMITTED candidate and has its reviewed revision plus one exactly while it is not deleted; `bot_count` is the number of COMMITTED candidates and of bot messages |
| SessionHistory.EachPostedOnce | packages/session-service/index.ts:345-365 | COMMITTED candidates and bot messages of a session correspond one to one |
| SessionHistory.LiveRunsAreCurrent | packages/session-service/index.ts:412-417 | In every reachable state an ACTIVE run carries the current worker epoch and the current epoch of a RUNNING session, and two ACTIVE runs share neither slot nor owner |
| SessionHistory.ResultTakesEffectOnce | packages/session-service/index.ts:569-577 | Once a result or error of a run was accepted, no later heartbeat, result or error naming that run changes anything, whatever happens in between, and the run row stays as it is |
| SessionHistory.OldGenerationsArePowerless | packages/session-service/index.ts:209-217 | Once the epoch of a run’s worker or session moved on, or its session stopped, no command naming the run ever changes anything again |
| SessionHistory.StoppedRunIsInert | packages/session-service/index.ts:412-417 | A heartbeat, result or error for a run that is not ACTIVE leaves every row as it was |
| SessionHistory.ResultStopsRun | packages/session-service/index.ts:642-660 | An accepted result or error leaves its run stopped |
| SessionHistory.StoppedForGood | packages/session-service/index.ts:412-417 | Through any history a stopped run keeps its row and stays without effect |
| SessionHistory.StaleWorkerIsPowerless | packages/session-service/index.ts:405-417 | A worker that presents an epoch other than the stored one changes nothing with a claim, heartbeat, result or error |
| SessionHistory.DecisionsAreFinal | packages/session-service/index.ts:209-262 | Whatever follows: published and dropped candidates and stopped runs keep their rows, messages keep author, place and thread and change text only with a new revision, bot text changes only by deletion, revisions, epochs, sequences and counters never go back, ENDED stays ENDED |
| SessionHistory.FailureLeavesReadyBehind | packages/session-service/index.ts:653-658 | A reported failure raises its owner’s wake and leaves a READY candidate READY: its reviewed wake then lies strictly below the current one, which arbitration rejects |
| SessionWakes.OnlyFailuresLeaveBehind | packages/session-service/index.ts:642-660 | From any reachable state in which READY means reviewed in the present wake, a step keeps that if and only if it is not a counted failure of an owner that has a candidate READY |
| SessionWakes.WakeSpares | packages/session-service/index.ts:318-336 | A wake leaves no woken owner’s candidate READY |
| SessionExample.FailureCanLeaveBehind | packages/session-service/index.ts:653-658 | A concrete history of seven transactions and a failed memory run after which a READY candidate stands behind the wake |
| SessionExample.DraftIsPublished | packages/session-service/index.ts:661-689 | A concrete history in which an agent decides, drafts and is published |
| SessionHistory.PauseHolds | packages/session-service/index.ts:176-185 | A session paused by the operator stays paused through every history without an operator lifecycle command: renewal, messages, recovery, timers and limits do not resume it |
| SessionHistory.StepKeepsInv | packages/session-service/index.ts:78-88 | Every transaction, accepted or rolled back, keeps the whole invariant: well-formed rows, one live candidate per owner, one run per slot, publication count, review coverage, publication fence, run fence |
| SessionHistory.RunKeepsInv | packages/session-service/index.ts:35-67 | Any sequence of transactions from a state with the invariant ends in one |
| SessionHistory.ReachedInv | packages/session-service/index.ts:35-67 | Every state reached from a fresh store has the invariant |
| SessionHistory.StepGrows | packages/session-service/index.ts:209-262 | No single transaction takes back a decision, a revision, an epoch or a message |
| SessionHistory.RunGrows | packages/session-service/index.ts:209-262 | No history takes back a decision, a revision, an epoch or a message |
| SessionHistory.OnlyCommitPublishes | packages/session-service/index.ts:661-689 | No transaction other than a commit creates a message with a candidate |
| SessionResults.ContextCovers | packages/session-service/index.ts:427-436 | The chunk of unread changes has no gap: it lists every message changed after the last review up to the revision where the chunk ends, and it never ends before it starts or beyond the session |
| SessionResults.ContextAdvances | packages/session-service/index.ts:427-436 | If a candidate is behind, its chunk ends strictly later than its last review, however little fits into the request |
| SessionResults.ReviewCatchesUp | packages/session-service/index.ts:427-436 | The review bounds reach the present revision of a session that stands still after at most as many chunks as revisions are missing, whatever the costs and limits |
| SessionProgress.Reviewing | packages/session-service/index.ts:569-611 | A claimed review whose result is kept or rewritten and accepted, with all inputs delivered and current, moves the candidate to where its request went, strictly if it was behind; it is then READY if and only if that is the present revision |
| SessionProgress.ReviewsEndReady | packages/session-service/index.ts:569-611 | Claims and accepted reviews that alternate in a session that stands still are at most as many as revisions were missing, one if none was; when there were that many the candidate is READY, and none follows once it is |
| SessionResults.PrefixHasNoGap | packages/session-service/index.ts:427-434 | A prefix of the changed rows in order of revision holds every message up to the revision of its last row |
| SessionSteps.Cut | packages/session-service/index.ts:429-434 | The cut takes at least one row if there is one, at most a hundred, and never more than there are |
| SessionSteps.ByRevisionKeepsRows | packages/session-service/index.ts:427 | Ordering the changed messages by revision loses none and repeats none |
| SessionResults.ClaimKeepsInv | packages/session-service/index.ts:448-493 | A claim, whether it returns the live run, replaces it, starts a new one or gives up on an owner, keeps the invariant |
| SessionResults.CompleteRunKeepsInv | packages/session-service/index.ts:569-641 | A result, whatever the model answered, keeps the invariant |
| SessionResults.ReviewedKeepsInv | packages/session-service/index.ts:594-612 | A completed draft or review moves the candidate to the revision its run saw and leaves nothing unread behind it |
| SessionResults.DeferAgentKeepsInv | packages/session-service/index.ts:562-567 | A deferral keeps the invariant |
| SessionFences.LifecycleKeepsInv | packages/session-service/index.ts:227-255 | Start, pause, resume and end keep the invariant |
| SessionFences.PauseForLimitKeepsInv | packages/session-service/index.ts:218-225 | A limit pause keeps the invariant |
| SessionFences.RenewAutomaticKeepsInv | packages/session-service/index.ts:176-185 | An automatic renewal keeps the invariant |
| SessionFences.StillCommandKeepsInv | packages/session-service/index.ts:256-264 | New settings or a manual renewal of a session at rest keep the invariant |
| SessionFences.SetAgentEnabledKeepsInv | packages/session-service/index.ts:265-277 | Enabling or disabling a participant keeps the invariant |
| SessionFences.ApplyMembershipKeepsInv | packages/session-service/membership.ts:71-105 | A reconciled participant list, with retired, changed and joining members, keeps the invariant |
| SessionFences.CreateSessionKeepsInv | packages/session-service/index.ts:189-208 | A new session keeps the invariant |
| SessionFences.RecoverKeepsInv | packages/session-service/index.ts:301-317 | Recovery under either restart policy keeps the invariant |
| SessionFences.RegeneratedIsQuiet | packages/session-service/index.ts:301-309 | Recovery leaves no live run and nothing READY |
| SessionFences.RegisterWorkerKeepsInv | packages/session-service/index.ts:394-404 | Replacing a worker process keeps the invariant |
| SessionFences.RetryAgentKeepsInv | packages/session-service/index.ts:139-148 | A manual retry of an owner keeps the invariant |
| SessionFences.ApplySourceKeepsInv | packages/session-service/sources.ts:75-104 | A new or revised source keeps the invariant |
| SessionFences.HeartbeatKeepsInv | packages/session-service/index.ts:494-496 | A heartbeat keeps the invariant |
| SessionFences.FailRunKeepsInv | packages/session-service/index.ts:642-660 | A reported failure keeps the invariant |
| SessionFences.ExpireLeasesKeepsInv | packages/session-service/index.ts:693-698 | Expired leases keep the invariant |
| SessionFences.TickAgentKeepsInv | packages/session-service/index.ts:706-730 | One owner’s part of a tick keeps the invariant |
| SessionPublishing.HumanMessageKeepsInv | packages/session-service/index.ts:366-372 | A message of the operator keeps the invariant |
| SessionPublishing.ChangeMessageKeepsInv | packages/session-service/index.ts:373-390 | An edit or deletion keeps the invariant |
| SessionPublishing.CommitOneKeepsInv | packages/session-service/index.ts:661-689 | A commit, whether it publishes, pauses, demotes or does nothing, keeps the invariant |
| SessionPublishing.RevisesThenWakes | packages/session-service/index.ts:349-361 | Renumbering the session and then waking every member but the author leaves nobody READY against the old history |
| SessionPublishing.PublishIsPosting | packages/session-service/index.ts:682-684 | Because the author is not woken by its own message, committing the candidate and counting it after the wake-ups equals doing so before them |
| SessionInvariant.WakeRestoresInv | packages/session-service/index.ts:318-336 | Whoever is READY against an old history only has to be woken for the invariant to hold again |
| SessionTables.SelectedIsPick | packages/session-service/index.ts:670-678 | Whatever order the READY rows are listed in, arbitration elects the one candidate that no other precedes |
| SessionTables.CompletedIs | packages/session-service/index.ts:569-641 | Marking the run DONE last, as the service does, equals the completed transaction |
| SessionService.Service.constructor | packages/session-service/index.ts:35-67 | A new service holds exactly the fresh store |
| SessionService.Service.WakeEach | packages/session-service/index.ts:318-336 | Waking owners one after the other, in any order, is the simultaneous wake |
| SessionService.Service.StopRuns | packages/session-service/index.ts:209-217 | Exactly the ACTIVE runs of the session (and slot) become CANCELLED; nothing else changes |
| SessionService.Service.LimitPause | packages/session-service/index.ts:218-225 | The session row, its runs and its READY candidates end as specified for a limit pause |
| SessionService.Service.Lifecycle | packages/session-service/index.ts:227-255 | Each refusal of the transition with its code and without a change; otherwise epoch, runs, READY candidates and wakes end as specified for start, pause, resume and end |
| SessionService.Service.Restart | packages/session-service/index.ts:301-317 | The loops over workers, sessions and owners end in the specified recovery |
| SessionService.Service.Say | packages/session-service/index.ts:366-372 | Refusals and final state of a human message as specified |
| SessionService.Service.ChangeText | packages/session-service/index.ts:373-390 | Refusals and final state of an edit or deletion as specified |
| SessionService.Service.Post | packages/session-service/index.ts:345-365 | Insert, stamp and wake-ups end in the specified append |
| SessionService.Service.Beat | packages/session-service/index.ts:494-496 | Refusals and final state of a heartbeat as specified |
| SessionService.Service.GiveBack | packages/session-service/index.ts:642-660 | Refusals and final state of a reported failure as specified, including the path for invalidated inputs |
| SessionService.Service.Register | packages/session-service/index.ts:394-404 | Refusals and final state of a worker registration as specified |
| SessionService.Service.Expire | packages/session-service/index.ts:693-698 | The loop over expired runs ends in the specified state |
| SessionService.Service.TickOne | packages/session-service/index.ts:706-730 | One owner’s part of a tick ends in the specified state |
| SessionService.Service.Choose | packages/session-service/index.ts:670-678 | Finds the candidate that the specified arbitration elects |
| SessionService.Service.Commit | packages/session-service/index.ts:661-689 | Ends in the specified commit: publication, demotion, pause or nothing |
| SessionService.Service.Return | packages/session-service/index.ts:569-641 | Refusals and final state of a result as specified; an identical repeat is acknowledged without a change, a different one refused |
| SessionService.Service.Defer | packages/session-service/index.ts:562-567 | Refusals and final state of a deferral as specified |
| SessionService.Service.KindOf | packages/session-service/index.ts:461-473 | Chooses the run kind that the specification gives |
| SessionService.Service.ReadChanges | packages/session-service/index.ts:427 | Reads exactly the changed messages in order of revision |
| SessionService.Service.CutChunk | packages/session-service/index.ts:428-434 | The loop cuts the chunk that the specification cuts |
| SessionService.Service.ReviewContext | packages/session-service/index.ts:418-436 | Builds the specified bounds and delta of a draft or review |
| SessionService.Service.Reuse | packages/session-service/index.ts:453-458 | A live run is given back or, when its inputs went stale, cancelled and its owner woken |
| SessionService.Service.Take | packages/session-service/index.ts:448-493 | The scan of the slot’s owners stops at the first that has work and whose input fits and starts its run; exactly the owners before it that have work give up; nothing starts only if nobody has work that fits; a live reusable run is given back; the state is the specified claim |
| SessionService.Service.Create | packages/session-service/index.ts:189-208 | Refusals and final state of a new session as specified |
| SessionService.Service.Configure | packages/session-service/index.ts:256-264 | Refusals and final state of new settings as specified |
| SessionService.Service.Renew | packages/session-service/index.ts:153-161 | Refusals and final state of a manual renewal as specified |
| SessionService.Service.AutoRenew | packages/session-service/index.ts:176-185 | Final state of an automatic renewal as specified |
| SessionService.Service.SetEnabled | packages/session-service/index.ts:265-277 | Refusals and final state of enabling or disabling as specified |
| SessionService.Service.RetryOwner | packages/session-service/index.ts:139-148 | Refusals and final state of a manual retry as specified |
| SessionService.Service.Reselect | packages/session-service/membership.ts:71-105 | Refusals and final state of a participant change as specified |
| SessionService.Service.ReviseSource | packages/session-service/sources.ts:75-104 | Refusals and final state of a source change as specified |
| Domain.CoalescingIsBounded | packages/domain/index.ts:25-29 | However many wake-ups follow, the due time never passes the first one plus the maximal wait, nor any one plus its debounce, and a later wake-up never postpones it |
| Domain.SelectCandidate | packages/domain/index.ts:16-24 | Elects an eligible candidate that no other eligible one precedes, and none exactly if none is eligible |
| Domain.SelectionIgnoresOrder | packages/domain/index.ts:16-24 | Two listings of the same rows with unique ids elect the same candidate |
| Domain.AgedGoesFirst | packages/domain/index.ts:16-24 | If an aged intention is eligible, the elected one is aged too and at least as old, directed or not |
| SessionArbitration.SomebodyIsServed | packages/session-service/index.ts:661-689 | In every reachable state, while a session may post and some candidate may speak, a commit publishes a candidate that nobody who may speak precedes, or sends it back to review: no round is spent on nobody |
| SessionArbitration.AgedIsNotOvertaken | packages/session-service/index.ts:661-689 | In every reachable state, while an aged candidate may speak, whoever is published instead is aged and was interested no later; the time of interest never changes |
| SessionArbitration.PickExists | packages/domain/index.ts:16-24 | Somebody is elected if and only if somebody may speak |
| LedgerProofs.EveryClashIsContested | packages/session-service/memory-ledger.ts:100-147 | In every reachable ledger two distinct current memories of one owner with the same subject and key and overlapping validity are both CONFLICT |
| LedgerProofs.RunKeepsOk | packages/session-service/memory-ledger.ts:100-157 | Every history of results, messages, edits and deletions keeps well-formed rows and conflict completeness |
| LedgerProofs.SaveKeepsOk | packages/session-service/memory-ledger.ts:100-147 | A memory result of notes and changes keeps well-formed rows and conflict completeness |
| LedgerProofs.SaveChangeKeepsOk | packages/session-service/memory-ledger.ts:107-146 | So does each add, merge, correct or conflict |
| LedgerProofs.ChangeKeepsConflicts | packages/session-service/memory-ledger.ts:125-146 | After a change everything still held that competes with the new memory is contested |
| LedgerProofs.ChangeMessageKeepsOk | packages/session-service/index.ts:373-390 | So does an edit or deletion of a message together with its invalidation |
| LedgerProofs.HeldIsCurrent | packages/session-service/memory-ledger.ts:14-28 | The status alone decides the shared predicate: a memory is current if and only if it is ACTIVE or CONFLICT |
| LedgerProofs.NoResurrection | packages/session-service/memory-ledger.ts:55-58 | A memory that is not current in a reachable ledger is not current in any later one |
| LedgerProofs.ClosureIsFlat | packages/session-service/memory-ledger.ts:148-157 | The recursive invalidation reaches exactly the memories that cite the message directly |
| LedgerProofs.PathCarriesEvidence | packages/session-service/memory-ledger.ts:80-90 | Derivation leads to later memories of the same owner that contain all evidence of the earlier ones |
| LedgerProofs.DerivationIsAcyclic | packages/session-service/memory-ledger.ts:80-90 | No memory descends from itself |
| Derivation.DerivedFallsWithItsSource | packages/session-service/memory-ledger.ts:91-99 | Between any two points of any history, if the status of a memory changed, by a merge, a correction, a contradiction or a change of its evidence, no memory derived from it by then, over any number of steps, is current any more |
| Derivation.ChangeSpreads | packages/session-service/memory-ledger.ts:139-144 | A change takes everything with it that was derived from a memory it supersedes, contests or loses |
| Derivation.EditSpreads | packages/session-service/memory-ledger.ts:148-157 | An edit or deletion takes everything with it that was derived from a memory it invalidates |
| LedgerProofs.EditInvalidatesExactly | packages/session-service/memory-ledger.ts:148-157 | After an edit or deletion a memory is current if and only if it was and does not cite the message; these are the ones that the version predicate newly rejects |
| Reconciliation.EquivalentsAreReconciled | packages/session-service/memory-ledger.ts:107-146 | After any accepted change the new memory is the only current one that says the same about an overlapping time, if and only if the change is not a `correct` that is no true correction and names a target that says the same and does not derive from another memory it marks |
| Reconciliation.TargetsOfCorrect | packages/session-service/memory-ledger.ts:128-144 | The status of each target after an accepted `correct`: INVALID if it derives from another memory that the change marks, else SUPERSEDED by a true correction, else CONFLICT |
| LedgerExample.EquivalentsCanStayApart | packages/session-service/memory-ledger.ts:137-144 | A reachable ledger in which a correction without new evidence leaves two memories with one meaning current |
| MemoryLedger.Tables.Closure | packages/session-service/memory-ledger.ts:148-157 | The recursive query returns exactly the rows reachable over derivation edges |
| MemoryLedger.Tables.SetStatus | packages/session-service/memory-ledger.ts:55-58 | Exactly the given rows change their status |
| MemoryLedger.Tables.InvalidateDescendants | packages/session-service/memory-ledger.ts:91-99 | Marks exactly what descends from the parents, sparing the newcomer, and returns it |
| MemoryLedger.Tables.AddNote | packages/session-service/memory-ledger.ts:102-106 | Refusal, final tables and unchanged tables after a refusal, as specified for a note |
| MemoryLedger.Tables.ApplyChange | packages/session-service/memory-ledger.ts:107-146 | Refusal, final tables and the reported losses as specified for a change |
| MemoryLedger.Tables.Save | packages/session-service/memory-ledger.ts:100-147 | A memory result is applied completely, as specified, or not at all |
| MemoryLedger.Tables.Invalidate | packages/session-service/memory-ledger.ts:148-157 | Final tables and the reported rows as specified |
| MemoryLedger.Tables.EditMessage | packages/session-service/index.ts:373-390 | Message row and ledger change together as specified; the reported rows are the ones that cite the message |
| PrivateState.EntriesStayFresh | packages/session-service/private-state.ts:52-145 | In every state that results, edits, deletions, source revisions and reconciliations can reach, each stored entry cites only undeleted messages at their current revision, readable sources at their current version and memories that are current |
| PrivateState.CompleteIsFresh | packages/session-service/private-state.ts:52-116 | An accepted result stands on an unchanged request, on the stored version and on the present profile, character and participants, and leaves only fresh entries |
| PrivateState.FinishKeepsFresh | packages/session-service/index.ts:613-623 | Patch and memory result of one run together keep all entries fresh |
| PrivateState.ChangeKeepsFresh | packages/session-service/index.ts:373-390 | An edit or deletion removes what it makes stale, also through invalidated memories |
| PrivateState.ReviseKeepsFresh | packages/session-service/sources.ts:75-104 | A source revision removes the entries that cite it |
| PrivateStates.Table.ApplyPatch | packages/session-service/private-state.ts:62-92 | The ordered edits of the map end in the specified entries, or refuse with the same code |
| PrivateStates.Table.Finish | packages/session-service/private-state.ts:52-116 | The refusals of request, owner, observation, identity, version, memories, patch and capacity in this order, with the same codes, and the stored row as specified; a refused result stores nothing |
| PrivateStates.Table.RemoveDependents | packages/session-service/private-state.ts:117-145 | The loop over owners strips every dependent entry, bumps the changed versions and touches no other session |
| InputProofs.ProducerMeetsChecker | packages/session-service/inputs.ts:43-157 | Any window that is cut is accepted while nothing changes, shows the evidence of every entry, and lies ahead of the cursor whenever something visible is pending |
| InputProofs.OptionalExtends | packages/session-service/inputs.ts:99-131 | Optional selection never removes mandatory evidence or moves the window |
| InputDelivery.ExactlyOnce | packages/session-service/inputs.ts:135-177 | In every reachable state and for each purpose the message entries of the accepted windows, joined in order, are exactly the message notices up to the cursor, and no cursor ever moves back |
| InputDelivery.DrainEnds | packages/session-service/inputs.ts:43-98 | While nothing new arrives, at most as many windows can be cut and accepted as notices lie ahead, each under limits and offers of its own |
| InputDelivery.RoundAdvances | packages/session-service/inputs.ts:170-177 | An accepted window of a pending purpose moves its cursor strictly |
| InputDelivery.MemoryGetsItsShare | packages/session-service/inputs.ts:33-42 | While memory stays due, one of any `memoryShareEvery` + 1 consecutive completed runs is a memory run |
| InputWindows.BetweenSplits | packages/session-service/source-access.ts:8-13 | The visible notices up to a point and those behind it are together the visible notices |
| InputWindows.HighestIs | packages/session-service/source-access.ts:23-30 | The high-water mark is the last visible notice |
| SourceChunks.PartsCoverTheText | packages/session-service/source-access.ts:31-48 | Following the cursors yields the rest of the text in parts of at most 1600 units, unless a low surrogate without its high one stands at the end of a part |
| SourceChunks.WellFormedIsReadWhole | packages/session-service/source-access.ts:31-48 | A text in which every low surrogate follows a high one is read whole |
| SourceChunks.PairsStayTogether | packages/session-service/source-access.ts:31-48 | No part of such a text begins or ends inside a surrogate pair |
| AgentInputs.Inputs.FillPrefix | packages/session-service/inputs.ts:75-93 | The growing loop takes the rows that the specification takes, or fails with the same code |
| AgentInputs.Inputs.Context | packages/session-service/inputs.ts:43-134 | The arrays that grow and shrink while the request is fitted end in the specified request; only a memory job that begins changes a cursor row, by freezing its target |
| AgentInputs.Inputs.CheckWindow | packages/session-service/inputs.ts:135-157 | Refuses exactly what the specified checker refuses, with its code |
| AgentInputs.Inputs.Complete | packages/session-service/inputs.ts:170-177 | An accepted result moves the cursor of its purpose as specified; a refused one moves nothing |
| JournalReplay.ReplayRebuildsTheSession | packages/storage-sqlite/diagnostic-migration.ts:44-85 | With the session of every row looked up through its parents as the triggers do, and for any statements that strand no row, including key changes and moves, the replay accepts every frame journaled for a session, ends with exactly its projected rows and satisfies the counts of the export header |
| JournalReplay.ReplayIsExactUnlessStranded | packages/storage-sqlite/diagnostic-migration.ts:28-85 | The condition is exact: the exports of all sessions after every prefix of the statements replay exactly if and only if no statement deletes, rekeys or moves a row that another row has its session from |
| JournalScopes.StrandsExactly | packages/storage-sqlite/diagnostic-migration.ts:28-40 | A statement strands if and only if it changes the session of a row of another table, which it does not touch and for which no frame is written |
| JournalScopes.StaysScoped | packages/storage-sqlite/diagnostic-migration.ts:28-40 | A statement that strands no row keeps every row in a session |
| JournalScopes.NoSessionNoFrame | packages/storage-sqlite/diagnostic-migration.ts:48-50 | A row whose parent is gone can be neither deleted nor stored under another key: the frame would have no session and the statement is refused |
| JournalExample.MovedParentIsNotReplayed | packages/storage-sqlite/diagnostic-migration.ts:28-40 | A concrete pair of tables in which moving a parent row to another session leaves an export that does not replay to that session’s rows |
| JournalReplay.StatementReplays | packages/storage-sqlite/diagnostic-migration.ts:69-85 | The frames of one statement that strands no row take the session’s rows from before to after it |
| JournalReplay.BaselineReplays | packages/storage-sqlite/diagnostic-migration.ts:50-68 | The baseline frames rebuild the rows that existed when journaling began |
| JournalReplay.MoveReplays | packages/storage-sqlite/diagnostic-migration.ts:69-85 | A new key or a new session is a delete where the row was and an insert where it is |
| Replay.ApplyKeepsRows | packages/observability/replay.ts:51-74 | Every accepted frame keeps rows complete and under their own key, and the row count exact |
| Replay.SwapUndoes | packages/observability/replay.ts:51-74 | The same frame with before and after exchanged is accepted next and restores the tables exactly |
| Replay.AcceptedFacts | packages/observability/replay.ts:51-74 | What an accepted insert, delete or update frame says of the row it touches |
| Replay.FactsAccept | packages/observability/replay.ts:51-74 | Conversely, within the limits of the header a frame that says this is accepted |
| Replay.Replay.ApplyFrame | packages/observability/replay.ts:51-74 | The object accepts and rejects as specified, with the same code, and ends in the specified state |
| Journal.Database.InsertRow | packages/storage-sqlite/diagnostic-migration.ts:69-85 | The row is stored and one frame of the session that its parents lead to is appended with the next number; without such a session, or with a known key, nothing changes |
| Journal.Database.DeleteRow | packages/storage-sqlite/diagnostic-migration.ts:69-85 | The row is gone and one frame with its whole former content is appended under the session that its parents lead to; without such a session nothing changes |
| Journal.Database.UpdateRow | packages/storage-sqlite/diagnostic-migration.ts:69-85 | One delta frame if key and session stay, otherwise a delete frame where the row was and an insert frame where it is, with both sessions looked up through the parents; a refused update changes neither |
| Budget.TokensAreConserved | packages/session-service/budget.ts:20-92 | In every reachable state of a session whose limit stays, the tokens accounted in the open window exceed it by no more than what calls reported beyond their own envelopes |
| Budget.ScopeTokensAreConserved | packages/session-service/budget.ts:40-92 | In every reachable state in which all who share a scope share its limits, the tokens accounted in any period of the scope exceed the limit by no more than what single calls of that period reported beyond their envelopes |
| Budget.AttemptsAreBounded | packages/session-service/index.ts:503-507 | In every reachable state a run made at most one primary call, one repair and two lookups, four in all, and began none while one of its own could still be running |
| Budget.RenewalIsOncePerWindow | packages/session-service/budget.ts:93-97 | A window that renews itself begins with nothing accounted and does not renew itself again before its whole length has passed |
| Budget.SettlementIsExact | packages/session-service/budget.ts:87-92 | A first complete report moves the open window by exactly the difference to the envelope, an incomplete or unknown one never below it; a repeat and a call of an older window change nothing |
| Budget.RepeatReservesOnce | packages/session-service/index.ts:497-516 | A repeated request key reserves nothing and is answered with the call it made, or refused if the stage differs |
| Budget.ExceededMeansOverrun | packages/session-service/budget.ts:60-68 | In every reachable state with fixed limits a session is found over its own limit, or over that of a scope it uses, only if a call that counts towards this limit reported more than its envelope |
| Budget.RepricingGrantsNothing | packages/session-service/budget.ts:33-36 | New limits keep the start of the window and what was consumed in it |
| Budget.ScopeGrantFits | packages/session-service/budget.ts:69-82 | After a grant under a shared scope policy the aligned period of the scope holds at most the allowed tokens and calls |
| Budget.SessionBudget.OpenWindow | packages/session-service/budget.ts:20-32 | An open window carries on; otherwise, or on a renewal, a window starts behind the calls made so far; the loop that finds the boundary row equals the specification |
| Budget.SessionBudget.ChangePolicy | packages/session-service/budget.ts:33-36 | The limits and the end of the open window change, its start and its calls do not: equal to the specified change |
| Budget.SessionBudget.ReserveCall | packages/session-service/index.ts:497-516 | Answers a repeated key, then checks the call limit, the attempts of the run, the budget and the provider in this order, and stores a new call at its full envelope: equal to the specified step |
| Budget.SessionBudget.SettleCall | packages/session-service/budget.ts:87-92 | The first result replaces or keeps the envelope, a repeat changes nothing: equal to the specified step |
| ProviderState.CapHolds | packages/provider-state/index.ts:28-35 | In every reachable state the unexpired RESERVED and ABANDONED calls of a scope are no more than the largest cap under which a reservation was made in it, and a blocked scope has no recorded probe |
| ProviderState.GrantFits | packages/provider-state/index.ts:28-35 | A grant leaves the scope within the cap of the very reservation, which is computed anew each time |
| ProviderState.OnlyTheOperatorUnblocks | packages/provider-state/index.ts:51-55 | A blocked scope stays blocked through every history without an operator’s probe request for it |
| ProviderState.OnlyTheProbeCloses | packages/provider-state/index.ts:36-49 | An open circuit closes only with the success of its recorded probe, reported by a live run, and is then sound |
| ProviderState.OpenAdmitsOneProbe | packages/provider-state/index.ts:28-35 | In an open circuit a reservation succeeds only when its time has come and no probe runs; it becomes the probe, and until its deadline no further one succeeds |
| ProviderState.ClaimablesAreAdmitted | packages/provider-state/index.ts:23-35 | If an agent may claim and the cap has room, the reservation that follows succeeds |
| ProviderState.SecondNeedsBreach | packages/provider-state/index.ts:28-49 | In every reachable state and over any history that follows a grant in an open circuit: a second call is admitted while that probe may still run only after a live first report of another call, the probe’s own TIMEOUT or DELIVERY_UNKNOWN, or the CONFIG_ERROR of a failed run, which needs no call |
| ProviderState.BreachAdmits | packages/provider-state/index.ts:28-49 | Conversely, right after such a report a second call is admitted beside the probe if and only if the scope is not blocked, the cooldown is over, the cap has room and the probe’s deadline has not come |
| ProviderState.BlockingNeedsTheOperator | packages/provider-state/index.ts:44-54 | After a report that blocks the scope no second call joins the probe, over any history without an operator’s probe request |
| ProviderState.OperatorAdmits | packages/provider-state/index.ts:51-54 | After the operator’s request a second call is admitted beside a probe that may still run, without a cooldown, if and only if the cap has room and the probe’s deadline has not come |
| ProviderState.ProbeStandsExactly | packages/provider-state/index.ts:36-49 | While an open circuit records a running probe, a step forgets the record if and only if it is the first, live report of a counted error of any call, the probe’s own success, or the CONFIG_ERROR of a failed run; no step puts another call in its place |
| ProviderState.TwoCallsInAnOpenCircuit | packages/provider-state/index.ts:36-49 | A history from the empty store in which two calls run in an open circuit after a late error of an earlier call |
| ProviderState.TimeoutAdmitsSecond | packages/provider-state/index.ts:36-49 | Another one, after the probe’s own TIMEOUT |
| ProviderState.MisconfiguredRunAdmitsSecond | packages/session-service/index.ts:642-655 | Another one, after a run without a call failed with CONFIG_ERROR and the operator asked for a probe; neither call was ever reported |
| ProviderState.Providers.ReserveCall | packages/provider-state/index.ts:28-35 | Blocked, cooling and full scopes refuse without a change; otherwise call row and, in an open circuit, the recorded probe are stored: equal to the specified step |
| ProviderState.Providers.FinishCall | packages/session-service/index.ts:517-531 | The call is finished once; the circuit hears of it only while the run that made it is live: equal to the specified step |
| ProviderState.Providers.AbandonCalls | packages/session-service/index.ts:642-655 | The loop marks exactly the RESERVED calls of the stopped run as ABANDONED |
| ProviderState.Providers.ReportFailure | packages/session-service/index.ts:642-655 | The calls of the failed run are abandoned, and CONFIG_ERROR counts against its scope whether or not it has any: equal to the specified step |
| ProviderState.Providers.Report | packages/provider-state/index.ts:36-49 | Success, counted and permanent errors move the health row as specified; mock scopes and other errors do not |
| ProviderState.Providers.AskForProbe | packages/provider-state/index.ts:51-55 | Refused while a probe runs; otherwise the scope is unblocked and due at once: equal to the specified step |
| Agenda.OverIsForGood | packages/session-service/agenda.ts:28-48 | CONSUMED and CANCELLED are absorbing and no plan changes its entry or condition |
| Agenda.OnePlanPerCondition | packages/session-service/agenda.ts:28-48 | An entry that keeps asking for the same condition never gets a second plan, not even after its plan was consumed |
| Agenda.WakesAreAccounted | packages/session-service/agenda.ts:71-110 | There are at most as many wakes as plans were created and matches withdrawn |
| Agenda.WakesAreSpaced | packages/session-service/agenda.ts:20-24 | With a fixed minimum interval any two wakes lie at least that far apart |
| Agenda.WakesAreRare | packages/session-service/agenda.ts:71-110 | A span of length L holds at most 1 + L / minimum wakes |
| Agenda.AgentAgenda.SyncPlans | packages/session-service/agenda.ts:28-48 | The two loops cancel and unbind what is no longer asked for and bind one fresh plan per new condition: equal to the simultaneous change, bindings stay sound |
| Agenda.LookFindsFirst | packages/session-service/agenda.ts:76-100 | A waiting plan is triggered if and only if one of the next hundred notices that its owner may see meets the condition, by the first that does, and does not look at the ones before it again |
| Agenda.AnnouncedMatchesStand | packages/session-service/agenda.ts:49-110 | In every reachable state, after a pass every announced plan was triggered by its time, or by a notice that is still the present version of an undeleted message or of a source that the owner may read |
| Agenda.EndedIsSilent | packages/session-service/agenda.ts:143-146 | After the end of a session no plan is open, and without a new synchronization no plan changes and no wake is given, whatever is dispatched or completed |
| Agenda.AgentAgenda.Look | packages/session-service/agenda.ts:76-100 | The scan stops at the first notice that meets the condition, after at most a hundred, and drops a match that no longer stands: equal to the specified plan |
| Agenda.AgentAgenda.DispatchPlans | packages/session-service/agenda.ts:71-110 | At most one wake, and only for signals not announced before and after the minimum interval: plans, clock and verdict equal the specified pass |
| Agenda.AgentAgenda.CompleteRun | packages/session-service/agenda.ts:132-142 | Consumes exactly the announced plans of a complete participation run, or refuses |
| Drafts.SubmittedAtMostOnce | apps/web/src/draft-controller.ts:67-89 | Through lost requests, lost responses, reloads and concurrent pages every post carries the payload its key was created with, the server publishes at most one message per key, and a CONFIRMED outbox names a publication of its own payload |
| Drafts.NoNewKeyInDoubt | apps/web/src/draft-controller.ts:67-77 | A new key is created only if none is SENDING or UNKNOWN, and it holds the stored draft |
| Drafts.AckSparesEdits | apps/web/src/draft-controller.ts:50-66 | An acknowledgement clears only a draft that is still exactly what was submitted, touches no other row and no typed text |
| Drafts.LaterEditsSurvive | apps/web/src/draft-controller.ts:50-66 | Once a typed draft is stored after a submission was made, no acknowledgement of it, of whatever page and however late, erases the draft |
| DraftConflicts.ConflictBlocks | apps/web/src/draft-controller.ts:23-49 | A page that was refused as a conflict changes nothing of the row and sends nothing new before it looks at the stored row again, by a reload or for an acknowledgement, whatever it and all others do |
| DraftConflicts.ConflictIsBehind | apps/web/src/draft-controller.ts:30-39 | A write refused as a conflict leaves the store, marks the row and keeps what was typed |
| DraftConflicts.AckForgetsConflict | apps/web/src/draft-controller.ts:50-66 | An acknowledgement that has read the row clears the error by its own write if and only if the server has a receipt for the submission that the row shows; what was typed stays on the page only, and the stored text is what may be sent |
| DraftConflicts.ConflictLastsExactly | apps/web/src/draft-controller.ts:23-66 | Over all histories without a reload: as long as the page has not read the row for an acknowledgement its error lasts; it lasts exactly while the cached row is older than the stored one; right after a reading it lasts no longer, and with nothing waiting one typed draft replaces the stored one and clears it |
| DraftConflicts.LastsExactly | apps/web/src/draft-controller.ts:23-66 | In any sound state the error of a page of the present generation lasts, whatever follows, until the page looks at the row, if and only if its cached row is older than the stored one |
| DraftConflicts.AcknowledgingEndsIt | apps/web/src/draft-controller.ts:50-66 | Any acknowledgement, whatever its key and whether or not a receipt exists, is refused, reads the row, and leaves the page so that one typed draft replaces the other page’s |
| DraftConflicts.ConflictKeepsText | apps/web/src/draft-controller.ts:19-39 | What was typed stays visible until it is typed over, the page is cleared, or the page looks at the row |
| DraftConflicts.RereadOverwrites | apps/web/src/draft-controller.ts:50-66 | After such a reading a waiting write of the page replaces the draft of the other page |
| DraftExample.ConflictCanBeForgotten | apps/web/src/draft-controller.ts:50-66 | A history of two pages from the empty store in which a conflict disappears without a reload and the page may send a text that it does not show |
| DraftExample.OlderAcknowledgementOverwrites | apps/web/src/draft-controller.ts:50-66 | Another one, in which a page acknowledges its older submission while the row shows one without a receipt, and its next text replaces the other page’s |
| DraftController.AckSucceedsAlone | apps/web/src/draft-controller.ts:50-66 | While nobody else writes, a page of the present generation acknowledges exactly when the stored row shows the submission, however stale its copy |
| DraftController.ResubmitsTheOriginal | apps/web/src/draft-controller.ts:90-104 | A submission goes out again only if the server was asked and had no receipt, and then under its own key with its own payload |
| DraftController.Shelf.Update | apps/web/src/draft-store.ts:71-93 | The versioned write stores the edited row at the next version, or refuses and stores nothing |
| DraftController.Shelf.Wipe | apps/web/src/draft-store.ts:94-103 | All rows are gone and the generation moves on |
| DraftController.Controller.MutateRow | apps/web/src/draft-controller.ts:23-29 | The page adopts the stored row after a successful versioned write and is refused, without adopting, after a lost race or when it has closed: equal to the specified step |
| DraftController.Controller.PersistDraft | apps/web/src/draft-controller.ts:30-39 | The first waiting write is stored or refused with its code; what was typed is forgotten only if nothing newer was typed and the write succeeded: equal to the specified step |
| DraftController.Controller.Submit | apps/web/src/draft-controller.ts:67-77 | A row in progress, in error, empty or in doubt is refused; otherwise a new outbox key is stored before anything may be posted, and only a changed row may be posted: equal to the specified step |
| DraftController.Controller.Deliver | apps/web/src/draft-controller.ts:78-89 | An answer is acknowledged; a refusal, a lost answer or a failed acknowledgement marks its own outbox as rejected or unknown; the row is no longer in progress: equal to the specified steps |
| DraftController.Controller.Resubmit | apps/web/src/draft-controller.ts:97-104 | The receipt is looked up first; the stored payload goes out again under its own key only if it is still open: equal to the specified steps |
| DraftController.Controller.Acknowledge | apps/web/src/draft-controller.ts:50-66 | Up to three versioned writes with a reading after each conflict, while other pages write and the page may close: equal to the specified loop |
| DraftController.Receipts.Apply | packages/session-service/index.ts:78-88 | The first application of a key publishes, an identical repeat returns its result, and a different payload is refused |
| Pages.PageSplits | packages/session-service/pages.ts:21-30 | A page is the tail of what its cursor has to show, the next cursor shows exactly the rest below the same fence, and its position is strictly smaller |
| Pages.PagesCoverTheFence | packages/session-service/pages.ts:14-30 | Following the cursors while messages are appended, edited and deleted collects every message at or below the fence exactly once, in order |
| Pages.ThreadPageSplits | packages/session-service/pages.ts:31-41 | A page of a thread is the head of what its cursor has to show, and the next cursor shows exactly the rest below the same fence |
| Pages.ThreadPagesCoverTheFence | packages/session-service/pages.ts:31-41 | Following the cursors of a thread collects every message of it at or below the fence exactly once, in order, although the thread changes meanwhile |
| ArchiveSession.KeepsTheLatest | apps/web/src/archive-session.ts:40-64 | After any pages and events the cache holds of each message the content of the highest revision that was delivered while the message was known |
| ArchiveSession.HoldsTheLatestExactly | apps/web/src/archive-session.ts:40-64 | It holds the latest delivered content if and only if a delivery of that content found the message known |
| ArchiveSession.OrderOfDeliveriesIsIrrelevant | apps/web/src/archive-session.ts:40-64 | Two arrivals of the same pages and events, in any order and with repetitions, end in the same cache if each event finds its message known |
| ArchiveSession.DeletionIsFinal | apps/web/src/archive-session.ts:40-64 | Once a deletion found its message known, no older page or event restores the text |
| ArchiveSession.EarlyDeletionIsDropped | apps/web/src/archive-session.ts:53-64 | A concrete case: a deletion that arrives before its message is known is dropped, and an older page then shows the text |
| ArchiveSession.PatchIsSafe | apps/web/src/archive-session.ts:53-64 | An event never takes a revision back, moves a message or leaves text in a deleted one |
| ArchiveSession.Archive.Deliver | apps/web/src/archive-session.ts:53-64 | Only a known message changes, towards a later revision; a jump in the revisions asks for repair |
| ArchiveSession.Archive.Synchronize | apps/web/src/archive-session.ts:65-92 | After a successful call the loaded history is one contiguous range up to the newest message, and after a due repair no known record is older than the server’s row; with nothing loaded before it starts at the snapshot |
| ArchiveSession.Archive.Bridge | apps/web/src/archive-session.ts:79-87 | Reading the gap page by page, each from a later server state, closes it or keeps what was recovered |
| ArchiveSession.Archive.LoadOlder | apps/web/src/archive-session.ts:130-143 | A page of older history extends the range downwards without a gap |
| ArchiveSession.Archive.RevalidateKnown | apps/web/src/archive-session.ts:93-111 | If all lookups succeed no known record is older than the server’s row; nothing is lost or moved |
| Canonical.TextsAreFaithful | packages/domain/index.ts:3-8 | On values whose keys the comparator orders strictly and totally, texts are equal if and only if the values are equal up to key order |
| Canonical.PrintSplits | packages/domain/index.ts:3-8 | A printed value shows where it ends: equal texts with any continuations have equal continuations and alike values |
| Canonical.OrderIsPermutation | packages/domain/index.ts:3-8 | Sorting the keys loses none and repeats none |
| Canonical.UnorderedKeysHaveTwoTexts | packages/domain/index.ts:3-8 | For two different keys that the comparator does not separate, one value has two texts |
| ThreadRoots.RootsAgree | packages/session-service/index.ts:345-355 | In every reachable state the stored thread root, the reader’s walk and the recursive query give the same message |
| ThreadRoots.WalkAndQueryAgree | apps/web/src/chat-model.ts:29-40 | On any graph, cycles included, walk and query agree on a known message if and only if its replies do not lead, over at least one step, to a message that answers an unknown one |
| ThreadRoots.ClosedGraphsAgree | packages/storage-sqlite/migrations.ts:17-22 | On any parent-closed graph walk and query agree |
| ThreadRoots.RootMessageId | apps/web/src/chat-model.ts:29-40 | The loop terminates and finds the specified root |

## Left out

What the model treats more simply than the code:

- Clocks, random jitter, UUIDs, lease tokens and hashes are arguments of a step. New ids are required to be new only where the table has a primary key that would refuse the transaction; two payloads with one digest count as the same payload.
- The size of a request is an uninterpreted predicate `fits`. No monotonicity is assumed; conversation flow, recall scoring and lookup results appear only as the candidates offered to it.
- `tick` and `claim` are sequences of smaller steps (expiry, renewal, one owner, limit, commit, claim), each its own transaction in the model. Every state between them is thus also one that the theorems cover.
- The order in which SQLite returns rows without ORDER BY is arbitrary; the class methods take rows in any order.
- Display state that no transition reads (agent status labels, activity other than the budget pause, stop reasons other than the operator's pause, episodes, questions, traces, events) is not in the rows.
- The session core knows calls, budgets, agenda, private state and inputs only by the verdicts that a step receives; the modules about them have states of their own. `STALE_EVIDENCE` stands for every refusal that they can cause inside a result.
- `updateBudgetPolicy` is the `Configure` step after its epoch check; `cloneSession` is the `Create` step with the definitions of an existing session.
- Settings and definitions are taken as valid: Zod shapes, profile compatibility and character versions are not checked again.
- NFKC normalisation and case folding: a normalised phrase is carried beside the text, so equality of phrases is equality of normal forms.
- Journal: foreign keys between the projected tables are not checked. A statement that they would refuse is a statement of the model; a parent row that is gone shows as a lookup without result.
- The columns that the diagnostic projection excludes are not in the rows; JSON encoding of a row is the row.
- PrivateStates: the digest of a stored request, of a profile and of a character is a number; equal numbers are equal texts.
- Replay.Replay.ApplyFrame: assumes a header that the constructor's checks have accepted; the transcript check of `finish` is not modelled, its counts are.
- Budget: charges of rows from before schema version 10 and the reports are left out; a session's own limits on time and messages are not part of it, and its limit on calls is the argument `maxCalls`. A run's counter of lookups is an argument.
- Budget.TokensAreConserved: the session's own limit stays fixed over the history, because a lowered limit can already be exceeded when it arrives; so do the limits of a scope in ScopeTokensAreConserved and ExceededMeansOverrun.
- ArchiveSession.Archive.Synchronize: calls follow one another. Overlapping calls, generations of abandoned requests, the page that is closed while it waits, `resynchronize`, search and open threads are left out; a read either returns a page of a later server state or fails. The ids of the thread view are not kept.
- ArchiveSession.KeepsTheLatest: an event is taken to name all that differs in its revision from every earlier one.
- ArchiveSession: the rows of one session are numbered 1, 2, 3 and so on without a hole, as `append` numbers them.
- Drafts: IndexedDB transactions are atomic steps; a broadcast signal arrives as a step of its own or never. The page may begin to send before the writes that wait are done, and may stop holding a row at any time; the theorems hold without these guards.
- DraftController.Controller.Resubmit: while one operation of the object waits, other pages write and the page may close, but the fields of the page itself do not change; what is typed meanwhile is a step of Drafts. The same holds of Submit, Deliver and Acknowledge.
- Agenda: the normal form in which topics and texts are compared is an arbitrary function.
- Canonical: numbers are their printed texts; `undefined`, functions and other values without a JSON form do not occur.
- InputWindows: what a request shows of a source is the first part of its text (`SourceChunks.Part`), of which the request itself carries only the excerpt mark. Only message notices have absolute exactly-once delivery; a source entry is exact at the time its window is accepted, because access to a source can be revoked.

What is not modelled:

- `retrieve` and lookups, `claimFeed` and `finishFeed` leases, feed definitions and audiences beyond who can read a source.
- `search` and `memories` pages: their cursors are built like those of history and threads, with other filters and a fence on edits.
- Migrations other than the recursive thread roots and the journal baseline.
- HTTP routes, authentication, event streams, workers' model calls, prompts, reports, metrics and the user interface.
