/** A candidate that has fallen behind becomes ready again: what one review after another leads to while nothing else happens. */
module SessionProgress {
  import opened Wrappers
  import opened Domain
  import opened SessionTypes
  import opened SessionSteps
  import opened SessionInvariant
  import opened SessionResults
  import opened SessionHistory

  /** A claim and the result that it leads to. */
  datatype Turn = Turn(take: Command, result: Command)

  ghost predicate Reviews(st: State, t: Turn, a: AgentId)
    requires Linked(st)
  {
    && t.take.Take? && t.take.choice == Some(a) && t.take.run !in st.runs && ActiveRun(st, t.take.slot).None?
    && t.take.run in Next(st, t.take).runs && Next(st, t.take).runs[t.take.run].kind == Review && t.take.prospect.delivered
  }

  /** Owner a takes a review and keeps or rewrites its text, and the result is accepted with all inputs delivered and still current. */
  ghost predicate ReviewTurn(st: State, t: Turn, a: AgentId)
    requires Inv(st)
  {
    && Linked(st) && Reviews(st, t, a) && Linked(Next(st, t.take))
    && t.result.Return? && t.result.run == t.take.run && (t.result.out.Keep? || t.result.out.Rewrite?) && t.result.verdict.inputsCurrent
    && Step(Next(st, t.take), t.result).Ok?
  }

  ghost function Afterwards(st: State, t: Turn): State
    requires Linked(st)
  {
    if Linked(Next(st, t.take)) then Next(Next(st, t.take), t.result) else st
  }

  /** One review after the other, and nothing between them. */
  ghost predicate Turns(st: State, turns: seq<Turn>, a: AgentId)
    decreases |turns|
  {
    turns == [] || (Inv(st) && Linked(st) && ReviewTurn(st, turns[0], a) && Turns(Afterwards(st, turns[0]), turns[1..], a))
  }

  ghost function AfterAll(st: State, turns: seq<Turn>): State
    decreases |turns|
  {
    if turns == [] || !Linked(st) then st else AfterAll(Afterwards(st, turns[0]), turns[1..])
  }

  /** The owner's live candidate, which has a text. */
  ghost predicate Holds(st: State, a: AgentId, c: CandidateId) {
    && c in st.candidates && st.candidates[c].agent == a && Live(st.candidates[c].state) && st.candidates[c].text.Some?
    && st.candidates[c].session in st.sessions
  }

  function Missing(st: State, c: CandidateId): int
    requires c in st.candidates && st.candidates[c].session in st.sessions
  {
    st.sessions[st.candidates[c].session].revision - st.candidates[c].reviewedRevision
  }

  /** What the claim starts: a review of unread changes of the candidate. */
  lemma TakenRun(st: State, t: Turn, a: AgentId, c: CandidateId)
    requires Inv(st) && Linked(st) && Reviews(st, t, a) && Holds(st, a, c)
    ensures a in st.agents && st.candidates[c].state == NEEDS_REVIEW && st.agents[a].session == st.candidates[c].session
    ensures var mid := Next(st, t.take);
      var r := mid.runs[t.take.run];
      && mid.candidates == st.candidates && mid.sessions == st.sessions
      && a in mid.agents && mid.agents[a].wakeSeq == st.agents[a].wakeSeq
      && r.agent == a && r.session == st.agents[a].session && r.wakeSeq == st.agents[a].wakeSeq && r.candidate == Some(c) && r.state == ACTIVE
      && r.context.deliveryComplete
      && st.candidates[c].reviewedRevision <= r.context.throughRevision <= st.sessions[r.session].revision
      && (Missing(st, c) > 0 ==> r.context.throughRevision > st.candidates[c].reviewedRevision)
  {
    hide Inv, CandidateContext, GiveUp, Linked;
    OneCandidate(st, a, c);
    var gone := GiveUp(st, t.take.slot, t.take.overflowed);
    OthersStay(st, t.take.slot, t.take.overflowed);
    GoneIsOk(st, t.take.slot, t.take.overflowed, c);
    ContextCovers(gone, gone.candidates[c], t.take.prospect);
    if Missing(st, c) > 0 { ContextAdvances(gone, gone.candidates[c], t.take.prospect); }
    ContextIsDelivered(gone, gone.candidates[c], t.take.prospect);
  }

  lemma OneCandidate(st: State, a: AgentId, c: CandidateId)
    requires Inv(st) && Holds(st, a, c)
    ensures LiveCandidate(st.candidates, a) == Some(c) && a in st.agents && st.agents[a].session == st.candidates[c].session
  {
    assert CandidateOk(st, st.candidates[c]);
  }

  lemma OthersStay(st: State, slot: Slot, overflowed: set<AgentId>)
    requires Linked(st)
    ensures var gone := GiveUp(st, slot, overflowed);
      gone == st.(agents := gone.agents) && gone.agents.Keys == st.agents.Keys
      && forall a :: a in st.agents ==> gone.agents[a] == st.agents[a].(errorCount := gone.agents[a].errorCount, retryAt := gone.agents[a].retryAt)
  {
  }

  lemma GoneIsOk(st: State, slot: Slot, overflowed: set<AgentId>, c: CandidateId)
    requires Inv(st) && Linked(st) && c in st.candidates
    ensures var gone := GiveUp(st, slot, overflowed); MessagesOk(gone) && MessagesDistinct(gone) && CandidateOk(gone, gone.candidates[c])
  {
    hide RunsOk, CoverageOk, CountOk, ReadyOk, RunsFenced, OneLiveCandidate, OneRunPerSlot, AgentsOk;
    assert CandidateOk(st, st.candidates[c]);
    var gone := GiveUp(st, slot, overflowed);
    forall m | m in gone.messages ensures MessageOk(gone, m, gone.messages[m]) { assert MessageOk(st, m, st.messages[m]); }
  }

  lemma ContextIsDelivered(st: State, k: Candidate, p: Prospect)
    requires k.session in st.sessions
    ensures CandidateContext(st, k, p).deliveryComplete == p.delivered
  {
  }

  /** The candidate after the review: reviewed to where the request went, and ready exactly if that is the present revision. */
  lemma Reviewing(st: State, t: Turn, a: AgentId, c: CandidateId)
    requires Inv(st) && ReviewTurn(st, t, a) && Holds(st, a, c)
    ensures var st' := Afterwards(st, t);
      && Holds(st', a, c) && st'.candidates[c].session == st.candidates[c].session && st'.sessions == st.sessions
      && (st'.candidates[c].state == READY <==> Missing(st', c) == 0) && (st'.candidates[c].state != READY ==> st'.candidates[c].state == NEEDS_REVIEW)
      && 0 <= Missing(st', c) && (Missing(st, c) > 0 ==> Missing(st', c) < Missing(st, c)) && (Missing(st, c) == 0 ==> Missing(st', c) == 0)
  {
    hide Inv, Claim, Settled, IntentProblem, Linked, DeferAgent;
    TakenRun(st, t, a, c);
    var mid := Next(st, t.take);
    var r := mid.runs[t.take.run];
    assert mid.runs[t.take.run].state != DONE;
    var o := ApplyOutput(Finished(mid, t.take.run, t.result.verdict.digest), r, t.result.out, t.result.verdict, t.result.now);
    assert o.Ok?;
  }

  lemma TurnKeepsInv(st: State, t: Turn, a: AgentId)
    requires Inv(st) && ReviewTurn(st, t, a)
    ensures Inv(Afterwards(st, t))
  {
    hide Inv, Next, Linked;
    StepKeepsInv(st, t.take);
    StepKeepsInv(Next(st, t.take), t.result);
  }

  /** Accepted reviews of a candidate of a session that stands still are no more than the revisions it was behind (one if it was not), and
      when there have been that many, it is ready, whatever the costs and limits of the requests. No review follows one that made it ready. */
  lemma {:induction false} ReviewsEndReady(st: State, turns: seq<Turn>, a: AgentId, c: CandidateId)
    requires Inv(st) && Holds(st, a, c) && Turns(st, turns, a)
    ensures var st' := AfterAll(st, turns);
      && Holds(st', a, c) && Missing(st', c) >= 0
      && (turns != [] ==> (st'.candidates[c].state == READY <==> Missing(st', c) == 0))
      && (Missing(st, c) > 0 ==> Missing(st', c) <= Missing(st, c) - |turns|)
      && (Missing(st, c) == 0 ==> Missing(st', c) == 0 && |turns| <= 1)
    decreases |turns|
  {
    hide Inv, ReviewTurn, Afterwards, Linked;
    if turns == [] {
      NotAhead(st, c);
    } else {
      var next := Afterwards(st, turns[0]);
      Reviewing(st, turns[0], a, c);
      TurnKeepsInv(st, turns[0], a);
      ReviewsEndReady(next, turns[1..], a, c);
      if turns[1..] != [] {
        ReviewNeedsReview(next, turns[1], a, c);
      }
    }
  }

  lemma NotAhead(st: State, c: CandidateId)
    requires Inv(st) && c in st.candidates && st.candidates[c].session in st.sessions
    ensures Missing(st, c) >= 0
  {
    assert CandidateOk(st, st.candidates[c]);
  }

  lemma ReviewNeedsReview(st: State, t: Turn, a: AgentId, c: CandidateId)
    requires Inv(st) && ReviewTurn(st, t, a) && Holds(st, a, c)
    ensures st.candidates[c].state == NEEDS_REVIEW
  {
    hide Inv;
    TakenRun(st, t, a, c);
  }
}
