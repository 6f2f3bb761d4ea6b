/** One short history, step by step: an agent decides to speak, drafts, and either publishes or is left ready behind its wake. */
module SessionExample {
  import opened Wrappers
  import opened Domain
  import opened SessionTypes
  import opened SessionSteps
  import opened SessionInvariant
  import opened SessionPublishing
  import opened SessionGrowth
  import opened SessionHistory
  import opened SessionWakes

  const Quick := Settings(0, 0, 0, 0, 0, 0, 0, 0, 1000, 1000, 1000, 5, 3)

  const Plain := Intent(None, [])

  /** The decide, draft and memory runs begin and end at time 0. */
  function Course(): seq<Command> {
    [Create(0, Quick, map[0 := 0]), Act(0, Start, true, 1, 0), TakeRun(0, false), ReturnRun(0, Speak(Plain)), TakeRun(1, false), ReturnRun(1, Drafted(7)), TakeRun(2, true)]
  }

  function TakeRun(id: RunId, memoryTurn: bool): Command { Take(0, 0, false, {}, Some(0), Prospect(true, false, memoryTurn, false, true, true, map[]), id, 0, 0) }

  function ReturnRun(id: RunId, out: Output): Command { Return(0, 0, id, 0, out, Verdict(true, true, true, false, 0, 0, 0), 0) }

  function TheSession(lifecycle: Lifecycle, epoch: nat): Session { Session(lifecycle, false, false, 0, epoch, 0, 0, 0, 0, Quick) }

  function TheAgent(wakeSeq: nat, processedWake: nat, pendingSince: Option<nat>, dueAt: Option<nat>): Agent {
    Agent(0, 0, true, false, wakeSeq, processedWake, pendingSince, dueAt, None, 0, 0, None)
  }

  function TheRun(kind: RunKind, state: RunState, candidate: Option<CandidateId>): SessionTypes.Run {
    SessionTypes.Run(0, 0, 0, 0, 1, kind, 0, state, 1, candidate, if candidate.Some? then 1 else 0, 1000, Context(0, 0, true, [], true), if state == DONE then Some(0) else None)
  }

  function TheCandidate(version: nat, state: CandidateState, text: Option<Text>): Candidate { Candidate(0, 0, version, state, text, Plain, 0, 0, 1, 0, 0, 1000) }

  function Stage(n: nat): State
    requires n <= 7
  {
    State(if n == 0 then map[] else map[0 := if n == 1 then TheSession(DRAFT, 0) else TheSession(RUNNING, 1)],
          if n == 0 then map[] else map[0 :=
            if n == 1 then TheAgent(0, 0, None, None)
            else if n <= 3 then TheAgent(1, 0, Some(0), Some(0))
            else if n <= 5 then TheAgent(1, 1, None, Some(0)) else TheAgent(1, 1, None, None)],
          if n <= 3 then map[] else map[0 := if n <= 5 then TheCandidate(1, DRAFTING, None) else TheCandidate(2, READY, Some(7))],
          if n <= 2 then map[]
          else if n == 3 then map[0 := TheRun(Decide, ACTIVE, None)]
          else if n == 4 then map[0 := TheRun(Decide, DONE, None)]
          else if n == 5 then map[0 := TheRun(Decide, DONE, None), 1 := TheRun(Draft, ACTIVE, Some(0))]
          else if n == 6 then map[0 := TheRun(Decide, DONE, None), 1 := TheRun(Draft, DONE, Some(0))]
          else map[0 := TheRun(Decide, DONE, None), 1 := TheRun(Draft, DONE, Some(0)), 2 := TheRun(Memory, ACTIVE, None)],
          map[],
          map[0 := 0])
  }

  lemma Created()
    ensures Linked(Stage(0)) && Next(Stage(0), Course()[0]) == Stage(1)
  {
  }

  lemma Started()
    ensures Linked(Stage(1)) && Next(Stage(1), Course()[1]) == Stage(2)
  {
    hide WakeAll;
    var st := Stage(1);
    assert RunningElsewhere(st, 0) == {};
    var running := st.(sessions := map[0 := TheSession(RUNNING, 1)]);
    assert st.sessions[0 := TheSession(RUNNING, 1)] == map[0 := TheSession(RUNNING, 1)];
    assert CancelRuns(running, 0, None) == running && MoveCandidates(running, 0, {READY}, NEEDS_REVIEW) == running;
    assert Members(running, 0) == {0};
    FirstWake();
    assert Lifecycled(st, 0, Start, true, 1, 0) == Ok(Stage(2));
  }

  lemma FirstWake()
    ensures var running := Stage(1).(sessions := map[0 := TheSession(RUNNING, 1)]);
      Linked(running) && WakeAll(running, Everyone({0}, RECOVERY), None, 0) == Stage(2)
  {
  }

  predicate Bound(st: State, version: nat) { 0 in st.candidates && st.candidates[0].version == version && st.candidates[0].agent == 0 && Live(st.candidates[0].state) }

  /** An accepted result: what the answer does to the candidate, and then the owner's row. */
  lemma Finishes(st: State, id: RunId, out: Output, applied: State, row: Agent)
    requires Linked(st) && id in st.runs && Authorize(st, 0, 0, id, 0, 0).Pass? && Fits(st.runs[id].kind, out) && Foreground(st.runs[id].kind)
    requires st.runs[id].session == 0 && st.runs[id].agent == 0 && 0 in st.sessions && 0 in st.agents
    requires st.runs[id].candidate.Some? ==> st.runs[id].candidate == Some(0) && Bound(st, st.runs[id].candidateVersion)
    requires ApplyOutput(Finished(st, id, 0), st.runs[id], out, ReturnRun(id, out).verdict, 0) == Ok(applied)
    requires 0 in applied.agents && Settled(applied, st.runs[id], 0) == row
    ensures Next(st, ReturnRun(id, out)) == applied.(agents := applied.agents[0 := row])
  {
    hide ApplyOutput, Settled, Fits;
  }

  lemma Decided()
    ensures Linked(Stage(3)) && Next(Stage(3), Course()[3]) == Stage(4)
  {
    hide Next;
    var st := Stage(3);
    var applied := st.(candidates := Stage(4).candidates, runs := Stage(4).runs);
    var r := st.runs[0];
    assert ApplyOutput(Finished(st, 0, 0), r, Speak(Plain), ReturnRun(0, Speak(Plain)).verdict, 0) == Ok(applied);
    OwnCandidate(applied);
    assert Settled(applied, r, 0) == TheAgent(1, 1, None, Some(0));
    Finishes(st, 0, Speak(Plain), applied, TheAgent(1, 1, None, Some(0)));
  }

  lemma OwnCandidate(st: State)
    requires st.candidates.Keys == {0} && st.candidates[0].agent == 0 && Live(st.candidates[0].state)
    ensures LiveCandidate(st.candidates, 0) == Some(0)
  {
    assert 0 in st.candidates;
  }

  /** Without a live run the claim starts what the owner has to do. */
  lemma Starts(st: State, memoryTurn: bool, id: RunId, run: SessionTypes.Run)
    requires Linked(st) && 0 in st.workers && st.workers[0] == 0 && id !in st.runs && (forall r :: r in st.runs ==> st.runs[r].state != ACTIVE)
    requires var p := TakeRun(id, memoryTurn).prospect;
      Claimable(st, 0, 0, p, 0) && KindFor(st, 0, p, 0) == Some(run.kind) && run == NewRun(st, 0, run.kind, p, 0, 0, 0)
    ensures Next(st, TakeRun(id, memoryTurn)) == st.(runs := st.runs[id := run])
  {
    hide KindFor, NewRun, Claimable;
    assert ActiveRun(st, 0).None?;
    assert GiveUp(st, 0, {}).agents == st.agents;
    assert GiveUp(st, 0, {}) == st;
  }

  lemma Deciding()
    ensures Linked(Stage(2)) && Next(Stage(2), Course()[2]) == Stage(3)
  {
    hide Next, CandidateContext;
    Starts(Stage(2), false, 0, TheRun(Decide, ACTIVE, None));
  }

  lemma Drafting()
    ensures Linked(Stage(4)) && Next(Stage(4), Course()[4]) == Stage(5)
  {
    hide Next;
    var st := Stage(4);
    var p := TakeRun(1, false).prospect;
    assert 0 in st.candidates && st.candidates[0].agent == 0 && Live(st.candidates[0].state);
    assert LiveCandidate(st.candidates, 0) == Some(0);
    assert SessionSteps.After(st, 0, 0) == {};
    assert CandidateContext(st, st.candidates[0], p) == Context(0, 0, true, [], true);
    Starts(st, false, 1, TheRun(Draft, ACTIVE, Some(0)));
  }

  lemma Ready()
    ensures Linked(Stage(5)) && Next(Stage(5), Course()[5]) == Stage(6)
  {
    hide Next;
    var st := Stage(5);
    var applied := st.(candidates := Stage(6).candidates, runs := Stage(6).runs);
    var r := st.runs[1];
    assert ApplyOutput(Finished(st, 1, 0), r, Drafted(7), ReturnRun(1, Drafted(7)).verdict, 0) == Ok(applied);
    OwnCandidate(applied);
    assert Settled(applied, r, 0) == TheAgent(1, 1, None, None);
    Finishes(st, 1, Drafted(7), applied, TheAgent(1, 1, None, None));
  }

  lemma Remembering()
    ensures Linked(Stage(6)) && Next(Stage(6), Course()[6]) == Stage(7)
  {
    hide Next, CandidateContext;
    Starts(Stage(6), true, 2, TheRun(Memory, ACTIVE, None));
  }

  lemma Stages(n: nat)
    requires n <= 7
    ensures Reached({0}, Course()[..n]) == Stage(n)
  {
    hide Next, Linked;
    if n == 0 {
      assert Course()[..0] == [];
      assert Initial({0}) == Stage(0);
    } else {
      Stages(n - 1);
      ReachedNext({0}, Course()[..n - 1], Course()[n - 1]);
      assert Course()[..n] == Course()[..n - 1] + [Course()[n - 1]];
      match n
      case 1 => Created();
      case 2 => Started();
      case 3 => Deciding();
      case 4 => Decided();
      case 5 => Drafting();
      case 6 => Ready();
      case _ => Remembering();
    }
  }

  /** A failure of the memory run leaves the drafted candidate ready behind the wake: the step that OnlyFailuresLeaveBehind excludes occurs. */
  lemma FailureCanLeaveBehind()
    ensures var cmd := GiveBack(0, 0, 2, 0, true, 0, 0);
      InWake(Reached({0}, Course())) && LeavesBehind(Reached({0}, Course()), cmd) && !InWake(Reached({0}, Course() + [cmd]))
  {
    hide Next, Linked;
    var cmd := GiveBack(0, 0, 2, 0, true, 0, 0);
    Stages(7);
    assert Course()[..7] == Course();
    var st := Stage(7);
    assert 0 in st.candidates && st.candidates[0].state == READY && st.candidates[0].agent == st.runs[2].agent;
    OnlyFailuresLeaveBehind({0}, Course(), cmd);
  }

  /** Without the failure the candidate is published: the histories that NothingUnread speaks of exist. */
  lemma DraftIsPublished()
    ensures Publishes(Reached({0}, Course()[..6]), Reached({0}, Course()[..6] + [Commit(0, false, true, 9, 0)]), 0, 0, 9)
  {
    hide Next, Linked;
    Stages(6);
    ReachedNext({0}, Course()[..6], Commit(0, false, true, 9, 0));
    Publishing();
  }

  lemma Elected()
    ensures Pick(Stage(6), 0, 0) == Some(0)
  {
    var st := Stage(6);
    assert Latest(st, 0).None?;
    assert IsPick(st, 0, 0, 0);
  }

  lemma Addressable()
    ensures IntentProblem(Stage(6), 0, Some(0), Plain).Pass?
  {
  }

  lemma Publishing()
    ensures Linked(Stage(6)) && Publishes(Stage(6), Next(Stage(6), Commit(0, false, true, 9, 0)), 0, 0, 9)
  {
    hide Publish, PauseForLimit, Pick, NewMessage, IntentProblem;
    Elected();
    Addressable();
    NewMessageShape(Stage(6), 0, 9, Some(0), 7, Plain, Some(0), 0);
    PublishedSession(Stage(6), 0, 0, 9, 0);
  }
}
