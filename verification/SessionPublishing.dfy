/** The invariant is kept by the commands that create rows, renumber history or publish. */
module SessionPublishing {
  import opened Wrappers
  import opened Domain
  import opened SessionTypes
  import opened SessionSteps
  import opened SessionInvariant
  import opened SessionFences

  // ---------------------------------------------------------------- one message gets the next revision

  /** Session sid moves to its next revision, which one new or edited message takes; at most candidate c becomes COMMITTED. */
  ghost predicate Revises(st: State, st': State, sid: SessionId, id: MessageId) {
    && sid in st.sessions && st'.sessions.Keys == st.sessions.Keys && st'.workers == st.workers && st'.runs == st.runs
    && (forall s :: s in st.sessions && s != sid ==> st'.sessions[s] == st.sessions[s])
    && st'.sessions[sid].revision == st.sessions[sid].revision + 1 && st'.sessions[sid].messageSeq >= st.sessions[sid].messageSeq
    && st'.sessions[sid].lifecycle == st.sessions[sid].lifecycle && st'.sessions[sid].epoch == st.sessions[sid].epoch
    && id in st'.messages && st'.messages == st.messages[id := st'.messages[id]]
    && st'.messages[id].session == sid && st'.messages[id].revision == st'.sessions[sid].revision
    && (if id in st.messages then SamePlace(st.messages[id], st'.messages[id]) else st'.messages[id].sequence == st'.sessions[sid].messageSeq == st.sessions[sid].messageSeq + 1)
    && st'.agents.Keys == st.agents.Keys
    && (forall a :: a in st.agents ==> SameOwner(st.agents[a], st'.agents[a]) && st'.agents[a].enabled == st.agents[a].enabled && st'.agents[a].retired == st.agents[a].retired)
    && st'.candidates.Keys == st.candidates.Keys
    && (forall c :: c in st.candidates ==> st'.candidates[c] == st.candidates[c] || (st.candidates[c].state == READY && st'.candidates[c] == st.candidates[c].(state := COMMITTED)))
  }

  predicate SamePlace(m: Message, m': Message) {
    m'.session == m.session && m'.sequence == m.sequence && m'.threadRoot == m.threadRoot && m'.replyTo == m.replyTo && m'.candidate == m.candidate && m'.author == m.author
  }

  lemma RevisesKeepsRows(st: State, st': State, sid: SessionId, id: MessageId)
    requires Core(st) && Revises(st, st', sid, id)
    ensures AgentsOk(st') && CandidatesOk(st') && RunsOk(st')
  {
    hide MessagesOk, MessagesDistinct, OneLiveCandidate, OneRunPerSlot, CountOk, CoverageOk;
    forall c | c in st'.candidates ensures CandidateOk(st', st'.candidates[c]) { assert CandidateOk(st, st.candidates[c]); }
    forall r | r in st'.runs ensures RunOk(st', st'.runs[r]) { assert RunOk(st, st.runs[r]); }
  }

  lemma RevisesKeepsMessages(st: State, st': State, sid: SessionId, id: MessageId)
    requires Core(st) && Revises(st, st', sid, id) && MessageOk(st', id, st'.messages[id])
    requires st'.messages[id].candidate.Some? && id !in st.messages ==> !Posted(st, st'.messages[id].candidate.value)
    ensures MessagesOk(st') && MessagesDistinct(st')
  {
    hide CandidatesOk, RunsOk, OneLiveCandidate, OneRunPerSlot, CountOk, CoverageOk;
    forall m | m in st'.messages ensures MessageOk(st', m, st'.messages[m]) {
      if m != id { assert MessageOk(st, m, st.messages[m]); }
    }
    forall x, y | x in st'.messages && y in st'.messages && x != y && st'.messages[x].session == st'.messages[y].session
      ensures st'.messages[x].revision != st'.messages[y].revision && st'.messages[x].sequence != st'.messages[y].sequence
      ensures st'.messages[x].candidate.Some? ==> st'.messages[x].candidate != st'.messages[y].candidate
    {
      if x != id { assert MessageOk(st, x, st.messages[x]); }
      if y != id { assert MessageOk(st, y, st.messages[y]); }
    }
  }

  lemma RevisesKeepsCoverage(st: State, st': State, sid: SessionId, id: MessageId)
    requires Core(st) && Revises(st, st', sid, id)
    ensures CoverageOk(st') && OneLiveCandidate(st') && OneRunPerSlot(st')
  {
    hide AgentsOk, MessagesOk, MessagesDistinct, CountOk, CandidatesOk, RunsOk, Covers, SawAll;
    RevisesKeepsCovers(st, st', sid, id);
    RevisesKeepsShown(st, st', sid, id);
    assert CoverageOk(st');
  }

  lemma RevisesKeepsCovers(st: State, st': State, sid: SessionId, id: MessageId)
    requires RunsOk(st) && CoverageOk(st) && Revises(st, st', sid, id)
    ensures forall r :: r in st'.runs && st'.runs[r].candidate.Some? ==> Covers(st', st'.runs[r])
  {
    forall r | r in st'.runs && st'.runs[r].candidate.Some? ensures Covers(st', st'.runs[r]) {
      assert Covers(st, st.runs[r]) && RunOk(st, st.runs[r]);
    }
  }

  lemma RevisesKeepsShown(st: State, st': State, sid: SessionId, id: MessageId)
    requires CandidatesOk(st) && CoverageOk(st) && Revises(st, st', sid, id)
    ensures SawAll(st')
  {
    hide Covers;
    forall c, m | c in st'.candidates && m in st'.messages && st'.messages[m].session == st'.candidates[c].session &&
                  st'.candidates[c].decidedAt < st'.messages[m].revision <= st'.candidates[c].reviewedRevision
      ensures Shown(st', c, Ref(m, st'.messages[m].revision))
    {
      assert CandidateOk(st, st.candidates[c]);
      assert m != id;
      assert Shown(st, c, Ref(m, st.messages[m].revision));
    }
  }

  lemma RevisesKeepsFences(st: State, st': State, sid: SessionId, id: MessageId, who: map<AgentId, Trigger>)
    requires Inv(st) && Revises(st, st', sid, id) && WakesTheReady(st, st', sid, who)
    ensures RunsFenced(st')
    ensures forall c :: c in st'.candidates && st'.candidates[c].state == READY ==> MayPublish(st', st'.candidates[c]) || Woken(st', who, st'.candidates[c].agent)
  {
    hide RunsOk, MessagesOk, MessagesDistinct, OneLiveCandidate, OneRunPerSlot, CountOk, CoverageOk;
    forall r | r in st'.runs && st'.runs[r].state == ACTIVE ensures Current(st', st'.runs[r]) { assert Current(st, st.runs[r]); }
    forall c | c in st'.candidates && st'.candidates[c].state == READY
      ensures MayPublish(st', st'.candidates[c]) || Woken(st', who, st'.candidates[c].agent)
    {
      assert MayPublish(st, st.candidates[c]) && CandidateOk(st, st.candidates[c]);
    }
  }

  ghost predicate WakesTheReady(st: State, st': State, sid: SessionId, who: map<AgentId, Trigger>) {
    forall c :: c in st'.candidates && st'.candidates[c].state == READY && st'.candidates[c].agent in Members(st, sid) ==> st'.candidates[c].agent in who
  }

  /** After the renumbering every member except the author is woken, so nothing stays ready against the old history. */
  lemma RevisesThenWakes(st: State, st': State, sid: SessionId, id: MessageId, who: map<AgentId, Trigger>, author: Option<AgentId>, now: nat)
    requires Inv(st) && Revises(st, st', sid, id) && MessageOk(st', id, st'.messages[id]) && CountOk(st') && Linked(st')
    requires st'.messages[id].candidate.Some? && id !in st.messages ==> !Posted(st, st'.messages[id].candidate.value)
    requires WakesTheReady(st, st', sid, who)
    ensures Inv(WakeAll(st', who, author, now))
  {
    hide WakeAll, AgentsOk, CandidatesOk, RunsOk, MessagesOk, MessagesDistinct, OneLiveCandidate, OneRunPerSlot, CountOk, CoverageOk, WakesTheReady, RunsFenced, ReadyOk;
    RevisesKeepsRows(st, st', sid, id);
    RevisesKeepsMessages(st, st', sid, id);
    RevisesKeepsCoverage(st, st', sid, id);
    RevisesKeepsFences(st, st', sid, id, who);
    WakeRestoresInv(st', who, author, now);
  }

  // ---------------------------------------------------------------- operator messages

  /** Nothing is published and no bot message disappears: the publication count stands. */
  lemma CountStays(st: State, st': State)
    requires CountOk(st) && st'.candidates == st.candidates && st'.sessions.Keys == st.sessions.Keys && st.messages.Keys <= st'.messages.Keys
    requires forall s :: s in st.sessions ==> st'.sessions[s].botCount == st.sessions[s].botCount
    requires forall m :: m in st.messages ==> st'.messages[m].candidate == st.messages[m].candidate
    ensures CountOk(st')
  {
    forall s | s in st'.sessions ensures st'.sessions[s].botCount == |CommittedIn(st', s)| { assert CommittedIn(st', s) == CommittedIn(st, s); }
    forall c | c in st'.candidates && st'.candidates[c].state == COMMITTED ensures Posted(st', c) {
      assert Posted(st, c);
      var m :| m in st.messages && st.messages[m].candidate == Some(c);
      assert st'.messages[m].candidate == Some(c);
    }
  }

  /** The new row is well placed in its thread whatever its author. */
  lemma NewMessageOk(st: State, st': State, sid: SessionId, id: MessageId, author: Option<AgentId>, text: Text, intent: Intent, candidate: Option<CandidateId>, now: nat)
    requires MessagesOk(st) && sid in st.sessions && IntentProblem(st, sid, author, intent).Pass? && id !in st.messages
    requires st'.messages == st.messages[id := NewMessage(st, sid, id, author, text, intent, candidate, now)]
    requires sid in st'.sessions && st'.sessions[sid].revision == st.sessions[sid].revision + 1 && st'.sessions[sid].messageSeq == st.sessions[sid].messageSeq + 1
    requires author.Some? <==> candidate.Some?
    requires candidate.Some? ==> candidate.value in st'.candidates && PublishedAs(st'.messages[id], st'.candidates[candidate.value])
    ensures MessageOk(st', id, st'.messages[id])
  {
    if intent.replyTo.Some? {
      assert MessageOk(st, intent.replyTo.value, st.messages[intent.replyTo.value]);
    }
  }

  lemma HumanMessageKeepsInv(st: State, sid: SessionId, id: MessageId, text: Text, intent: Intent, now: nat)
    requires Inv(st)
    ensures var out := HumanMessage(st, sid, id, text, intent, now); out.Ok? ==> Inv(out.state)
  {
    hide AgentsOk, CandidatesOk, RunsOk, MessagesOk, MessagesDistinct, OneLiveCandidate, OneRunPerSlot, CountOk, CoverageOk, ReadyOk, RunsFenced, WakeAll, IntentProblem, MessageOk, NewMessage;
    InvLinked(st);
    var out := HumanMessage(st, sid, id, text, intent, now);
    if out.Ok? {
      var posted := Inserted(st, sid, id, None, text, intent, None, now);
      InsertedRevises(st, sid, id, None, text, intent, None, now);
      NewMessageOk(st, posted, sid, id, None, text, intent, None, now);
      CountStays(st, posted);
      RevisesThenWakes(st, posted, sid, id, Audience(st, sid, None, intent.addressedTo), None, now);
    }
  }

  lemma InsertedRevises(st: State, sid: SessionId, id: MessageId, author: Option<AgentId>, text: Text, intent: Intent, candidate: Option<CandidateId>, now: nat)
    requires Linked(st) && sid in st.sessions && IntentProblem(st, sid, author, intent).Pass? && id !in st.messages
    ensures var st' := Inserted(st, sid, id, author, text, intent, candidate, now);
      Linked(st') && Revises(st, st', sid, id) && st'.messages[id].candidate == candidate && st'.candidates == st.candidates
  {
    hide IntentProblem;
  }

  lemma ChangeMessageKeepsInv(st: State, sid: SessionId, id: MessageId, text: Option<Text>, now: nat)
    requires Inv(st)
    ensures var out := ChangeMessage(st, sid, id, text, now); out.Ok? ==> Inv(out.state)
  {
    hide AgentsOk, CandidatesOk, RunsOk, MessagesOk, MessagesDistinct, OneLiveCandidate, OneRunPerSlot, CountOk, CoverageOk, ReadyOk, RunsFenced, WakeAll;
    InvLinked(st);
    var out := ChangeMessage(st, sid, id, text, now);
    if out.Ok? {
      var edited := Edited(st, sid, id, text);
      EditedMessageOk(st, sid, id, text);
      CountStays(st, edited);
      RevisesThenWakes(st, edited, sid, id, Everyone(Members(st, sid), EDIT), None, now);
    }
  }

  lemma EditedMessageOk(st: State, sid: SessionId, id: MessageId, text: Option<Text>)
    requires MessagesOk(st) && sid in st.sessions && id in st.messages && st.messages[id].session == sid && !st.messages[id].deleted
    requires text.None? || st.messages[id].author.None?
    ensures MessageOk(Edited(st, sid, id, text), id, Edited(st, sid, id, text).messages[id])
  {
    assert MessageOk(st, id, st.messages[id]);
  }

  // ---------------------------------------------------------------- publication

  /** The publication as one simultaneous change, before anybody is woken. */
  function Posting(st: State, sid: SessionId, c: CandidateId, id: MessageId, now: nat): State
    requires sid in st.sessions && c in st.candidates && st.candidates[c].text.Some?
    requires IntentProblem(st, sid, Some(st.candidates[c].agent), st.candidates[c].intent).Pass?
  {
    var k := st.candidates[c];
    var posted := Inserted(st, sid, id, Some(k.agent), k.text.value, k.intent, Some(c), now);
    posted.(candidates := st.candidates[c := k.(state := COMMITTED)],
            sessions := posted.sessions[sid := posted.sessions[sid].(botCount := posted.sessions[sid].botCount + 1)])
  }

  /** The author is not woken by its own message, so marking the candidate before or after the wake-ups is the same. */
  lemma PublishIsPosting(st: State, sid: SessionId, c: CandidateId, id: MessageId, now: nat)
    requires Linked(st) && sid in st.sessions && c in st.candidates && st.candidates[c].text.Some? && st.candidates[c].agent in st.agents
    requires IntentProblem(st, sid, Some(st.candidates[c].agent), st.candidates[c].intent).Pass?
    ensures Linked(Posting(st, sid, c, id, now))
    ensures var k := st.candidates[c];
      Publish(st, sid, c, id, now) == WakeAll(Posting(st, sid, c, id, now), Audience(st, sid, Some(k.agent), k.intent.addressedTo), Some(k.agent), now)
  {
    hide IntentProblem, NewMessage, WakeAll, Audience;
    var k := st.candidates[c];
    var who := Audience(st, sid, Some(k.agent), k.intent.addressedTo);
    var posted, p := Inserted(st, sid, id, Some(k.agent), k.text.value, k.intent, Some(c), now), Posting(st, sid, c, id, now);
    NotOwnAudience(st, sid, k.agent, k.intent.addressedTo);
    MarkingCommutes(posted, p, sid, c, who, Some(k.agent), now);
  }

  lemma NotOwnAudience(st: State, sid: SessionId, author: AgentId, addressedTo: seq<AgentId>)
    ensures author !in Audience(st, sid, Some(author), addressedTo)
  {
  }

  /** Marking a candidate whose owner is not woken, and counting it, may come before or after the wake-ups. */
  lemma MarkingCommutes(posted: State, p: State, sid: SessionId, c: CandidateId, who: map<AgentId, Trigger>, author: Option<AgentId>, now: nat)
    requires Linked(posted) && Linked(p) && sid in posted.sessions && c in posted.candidates && posted.candidates[c].agent !in who
    requires p == posted.(candidates := posted.candidates[c := posted.candidates[c].(state := COMMITTED)],
                          sessions := posted.sessions[sid := posted.sessions[sid].(botCount := posted.sessions[sid].botCount + 1)])
    ensures var left, right := WakeAll(posted, who, author, now), WakeAll(p, who, author, now);
      c in left.candidates && sid in left.sessions &&
      left.(candidates := left.candidates[c := left.candidates[c].(state := COMMITTED)],
            sessions := left.sessions[sid := left.sessions[sid].(botCount := left.sessions[sid].botCount + 1)]) == right
  {
    hide WokenAgent, WokenCandidate, WakeResumes, WakeAll;
    var left, right := WakeAll(posted, who, author, now), WakeAll(p, who, author, now);
    SessionsUntouched(posted, who, author, now);
    SessionsUntouched(p, who, author, now);
    CountingSparesAgents(posted, p, who, author, now);
    MarkingCommutesOnCandidates(posted, p, c, who, author, now);
  }

  lemma SessionsUntouched(st: State, who: map<AgentId, Trigger>, author: Option<AgentId>, now: nat)
    requires Linked(st)
    ensures var st' := WakeAll(st, who, author, now);
      st'.sessions == st.sessions && st'.messages == st.messages && st'.runs == st.runs && st'.workers == st.workers && st'.candidates.Keys == st.candidates.Keys
  {
    hide WokenAgent, WokenCandidate, WakeResumes;
  }

  lemma CountingSparesAgents(posted: State, p: State, who: map<AgentId, Trigger>, author: Option<AgentId>, now: nat)
    requires Linked(posted) && Linked(p) && p.agents == posted.agents && p.sessions.Keys == posted.sessions.Keys
    requires forall s :: s in p.sessions ==> p.sessions[s].settings == posted.sessions[s].settings
    ensures WakeAll(p, who, author, now).agents == WakeAll(posted, who, author, now).agents
  {
    hide WokenAgent, WokenCandidate, WakeResumes;
    var left, right := WakeAll(posted, who, author, now).agents, WakeAll(p, who, author, now).agents;
    forall a | a in left ensures left[a] == right[a] {}
  }

  lemma MarkingCommutesOnCandidates(posted: State, p: State, c: CandidateId, who: map<AgentId, Trigger>, author: Option<AgentId>, now: nat)
    requires Linked(posted) && Linked(p) && p.agents == posted.agents && c in posted.candidates && posted.candidates[c].agent !in who
    requires p.candidates == posted.candidates[c := posted.candidates[c].(state := COMMITTED)]
    ensures var left := WakeAll(posted, who, author, now).candidates;
      c in left && left[c := left[c].(state := COMMITTED)] == WakeAll(p, who, author, now).candidates
  {
    hide WokenAgent, WokenCandidate, WakeResumes;
    var left, right := WakeAll(posted, who, author, now).candidates, WakeAll(p, who, author, now).candidates;
    forall d | d in right ensures left[c := left[c].(state := COMMITTED)][d] == right[d] {}
  }

  lemma PostingCounts(st: State, sid: SessionId, c: CandidateId, id: MessageId, now: nat)
    requires sid in st.sessions && c in st.candidates && st.candidates[c].text.Some? && id !in st.messages
    requires IntentProblem(st, sid, Some(st.candidates[c].agent), st.candidates[c].intent).Pass?
    requires CountOk(st) && st.candidates[c].state == READY && st.candidates[c].session == sid
    ensures CountOk(Posting(st, sid, c, id, now))
  {
    hide IntentProblem, Posting, CommittedIn, Posted;
    PostingRows(st, sid, c, id, now);
    CommitCounts(st, Posting(st, sid, c, id, now), sid, c);
    CommitsStayPosted(st, Posting(st, sid, c, id, now), c, id);
  }

  lemma CommitCounts(st: State, p: State, sid: SessionId, c: CandidateId)
    requires CountOk(st) && c in st.candidates && st.candidates[c].state == READY && st.candidates[c].session == sid && sid in st.sessions
    requires p.candidates == st.candidates[c := st.candidates[c].(state := COMMITTED)]
    requires p.sessions.Keys == st.sessions.Keys && p.sessions[sid].botCount == st.sessions[sid].botCount + 1
    requires forall s :: s in st.sessions && s != sid ==> p.sessions[s] == st.sessions[s]
    ensures forall s :: s in p.sessions ==> p.sessions[s].botCount == |CommittedIn(p, s)|
  {
    hide Posted;
    forall s | s in p.sessions ensures p.sessions[s].botCount == |CommittedIn(p, s)| {
      assert st.sessions[s].botCount == |CommittedIn(st, s)|;
      if s == sid {
        assert CommittedIn(p, s) == CommittedIn(st, s) + {c} && c !in CommittedIn(st, s);
      } else {
        assert CommittedIn(p, s) == CommittedIn(st, s);
      }
    }
  }

  lemma CommitsStayPosted(st: State, p: State, c: CandidateId, id: MessageId)
    requires CountOk(st) && c in st.candidates && p.candidates == st.candidates[c := st.candidates[c].(state := COMMITTED)]
    requires p.messages.Keys == st.messages.Keys + {id} && p.messages[id].candidate == Some(c) && forall m :: m in st.messages ==> p.messages[m] == st.messages[m]
    ensures forall d :: d in p.candidates && p.candidates[d].state == COMMITTED ==> Posted(p, d)
  {
    forall d | d in p.candidates && p.candidates[d].state == COMMITTED ensures Posted(p, d) {
      if d == c {
        assert p.messages[id].candidate == Some(c);
      } else {
        assert Posted(st, d);
        var m :| m in st.messages && st.messages[m].candidate == Some(d);
        assert p.messages[m].candidate == Some(d);
      }
    }
  }

  lemma PostingRows(st: State, sid: SessionId, c: CandidateId, id: MessageId, now: nat)
    requires sid in st.sessions && c in st.candidates && st.candidates[c].text.Some? && id !in st.messages
    requires IntentProblem(st, sid, Some(st.candidates[c].agent), st.candidates[c].intent).Pass?
    ensures var p := Posting(st, sid, c, id, now);
      && p.candidates == st.candidates[c := st.candidates[c].(state := COMMITTED)]
      && p.sessions.Keys == st.sessions.Keys && p.sessions[sid].botCount == st.sessions[sid].botCount + 1
      && (forall s :: s in st.sessions && s != sid ==> p.sessions[s] == st.sessions[s])
      && p.messages.Keys == st.messages.Keys + {id} && p.messages[id].candidate == Some(c) && (forall m :: m in st.messages ==> p.messages[m] == st.messages[m])
  {
    hide IntentProblem, Members, StampAuthor;
  }

  lemma NotYetPosted(st: State, c: CandidateId)
    requires MessagesOk(st) && c in st.candidates && st.candidates[c].state != COMMITTED
    ensures !Posted(st, c)
  {
    forall m | m in st.messages ensures st.messages[m].candidate != Some(c) { assert MessageOk(st, m, st.messages[m]); }
  }

  lemma PublishKeepsInv(st: State, sid: SessionId, c: CandidateId, id: MessageId, now: nat)
    requires Inv(st) && sid in st.sessions && c in st.candidates && st.candidates[c].session == sid && st.candidates[c].state == READY && id !in st.messages
    requires st.candidates[c].text.Some? && IntentProblem(st, sid, Some(st.candidates[c].agent), st.candidates[c].intent).Pass?
    ensures Inv(Publish(st, sid, c, id, now))
    ensures sid in Publish(st, sid, c, id, now).sessions
  {
    hide AgentsOk, CandidatesOk, RunsOk, MessagesOk, MessagesDistinct, OneRunPerSlot, CountOk, CoverageOk, RunsFenced, WakeAll, IntentProblem, NewMessage, Members, Linked;
    InvLinked(st);
    var k := st.candidates[c];
    var p := Posting(st, sid, c, id, now);
    assert MayPublish(st, k);
    NotYetPosted(st, c);
    PostingCounts(st, sid, c, id, now);
    InsertedRevises(st, sid, id, Some(k.agent), k.text.value, k.intent, Some(c), now);
    PublishIsPosting(st, sid, c, id, now);
    assert p.messages[id].revision == k.reviewedRevision + 1 && p.messages[id].author == Some(k.agent) && !p.messages[id].deleted by {
      assert p.messages[id] == NewMessage(st, sid, id, Some(k.agent), k.text.value, k.intent, Some(c), now);
      NewMessageShape(st, sid, id, Some(k.agent), k.text.value, k.intent, Some(c), now);
    }
    NewMessageOk(st, p, sid, id, Some(k.agent), k.text.value, k.intent, Some(c), now);
    var who := Audience(st, sid, Some(k.agent), k.intent.addressedTo);
    assert WakesTheReady(st, p, sid, who) by {
      forall d | d in p.candidates && p.candidates[d].state == READY && p.candidates[d].agent in Members(st, sid) ensures p.candidates[d].agent in who {
        assert d != c && Live(st.candidates[d].state);
      }
    }
    RevisesThenWakes(st, p, sid, id, who, Some(k.agent), now);
  }

  lemma NewMessageShape(st: State, sid: SessionId, id: MessageId, author: Option<AgentId>, text: Text, intent: Intent, candidate: Option<CandidateId>, now: nat)
    requires sid in st.sessions && IntentProblem(st, sid, author, intent).Pass?
    ensures var m := NewMessage(st, sid, id, author, text, intent, candidate, now);
      m.revision == st.sessions[sid].revision + 1 && m.session == sid && m.author == author && m.candidate == candidate && !m.deleted
  {
  }

  lemma CommitOneKeepsInv(st: State, sid: SessionId, budgetExceeded: bool, bindingCurrent: bool, id: MessageId, now: nat)
    requires Inv(st)
    ensures var out := CommitOne(st, sid, budgetExceeded, bindingCurrent, id, now); out.Ok? ==> Inv(out.state)
  {
    hide Inv, Publish, PauseForLimit, IntentProblem;
    InvLinked(st);
    var out := CommitOne(st, sid, budgetExceeded, bindingCurrent, id, now);
    if out.Ok? && st.sessions[sid].lifecycle == RUNNING {
      var pick := Pick(st, sid, now);
      PauseForLimitKeepsInv(st, sid);
      if pick.Some? {
        var c := pick.value;
        assert IsPick(st, sid, now, c);
        DemotionKeepsInv(st, st.candidates[c := st.candidates[c].(state := NEEDS_REVIEW)], st.runs);
        if st.candidates[c].text.Some? && IntentProblem(st, sid, Some(st.candidates[c].agent), st.candidates[c].intent).Pass? && id !in st.messages {
          PublishKeepsInv(st, sid, c, id, now);
          PauseForLimitKeepsInv(Publish(st, sid, c, id, now), sid);
        }
      }
    }
  }
}
