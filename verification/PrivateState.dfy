/** Owner-private entries that cite messages and sources by version and derive from memories, and what keeps them fresh. */
module PrivateState {
  import opened Wrappers
  import L = Ledger
  import LP = LedgerProofs

  type Owner = L.Owner
  type SessionId = L.SessionId
  type MessageId = L.MessageId
  type MemoryId = L.MemoryId
  type Book = L.Book
  type Note = L.Note
  type Request = L.Request

  type SourceId = nat
  type EntryId = nat

  /** readers: the owners that the enabled source admits at its present version. */
  datatype Source = Source(session: SessionId, version: nat, readers: set<Owner>)

  datatype Cite = OfMessage(message: MessageId, version: nat) | OfSource(source: SourceId, version: nat)

  datatype Entry = Entry(id: EntryId, cites: seq<Cite>, derivedFrom: seq<MemoryId>, question: Option<MessageId>, assessment: bool, text: nat)

  datatype Private = Private(version: nat, entries: seq<Entry>)

  datatype World = World(book: Book, sources: map<SourceId, Source>, states: map<Owner, Private>)

  datatype Member = Member(character: nat, version: nat)

  /** The owner's row: its profile and its character as digests, and what others see of the character. */
  datatype Person = Person(session: SessionId, enabled: bool, profile: nat, character: nat, member: Member)

  type People = map<Owner, Person>

  /** Who the owner was, and among whom, when the request was made. */
  datatype Identity = Identity(profile: Option<nat>, character: nat, participants: map<Owner, Member>)

  /** The stored request: whose it is, the private state in it, the id that its manifest was given, the digest that its text has now, and
      the identity in it. */
  datatype Context = Context(self: Owner, stateOwner: Owner, stateSession: SessionId, version: nat, observation: nat, digest: nat, identity: Identity)

  /** What the run bound: its owner and session, the stored request if it holds a state and a manifest, the observed evidence and the supplied
      memories. */
  datatype Bound = Bound(owner: Owner, session: SessionId, context: Option<Context>, observed: set<Cite>, memories: set<MemoryId>)

  datatype Patch = Patch(owner: Owner, session: SessionId, expectedVersion: nat, observation: nat, upsert: seq<Entry>, remove: seq<EntryId>)

  datatype Code =
    | STATE_CONTEXT_REQUIRED | STATE_OWNER_MISMATCH | STATE_OBSERVATION_MISMATCH | STALE_AGENT_IDENTITY | STALE_PRIVATE_STATE | STALE_MEMORY_EVIDENCE | DUPLICATE_STATE_OPERATION
    | DUPLICATE_STATE_EVIDENCE | DUPLICATE_STATE_MEMORY | UNOBSERVED_STATE_MEMORY | UNOBSERVED_STATE_EVIDENCE | STALE_STATE_EVIDENCE
    | QUESTION_EVIDENCE_REQUIRED | UNKNOWN_STATE_ENTRY | DUPLICATE_PARTICIPATION_ASSESSMENT | DUPLICATE_QUESTION_ASSESSMENT | PRIVATE_STATE_CAPACITY

  datatype Check = Pass | Fail(code: Code)
  {
    predicate IsFailure() { Fail? }
    function PropagateFailure(): Result requires Fail? { Refused(code) }
  }

  datatype Result = Applied(state: Private) | Refused(code: Code)

  function Ensure(condition: bool, code: Code): Check { if condition then Pass else Fail(code) }

  function StateOf(states: map<Owner, Private>, owner: Owner): Private { if owner in states then states[owner] else Private(0, []) }

  // ---------------------------------------------------------------- evidence

  predicate CiteHolds(b: Book, sources: map<SourceId, Source>, owner: Owner, c: Cite) {
    match c
    case OfMessage(m, version) =>
      owner in b.owners && m in b.messages && b.messages[m].session == b.owners[owner] && !b.messages[m].deleted && b.messages[m].revision == version
    case OfSource(s, version) =>
      owner in b.owners && s in sources && sources[s].session == b.owners[owner] && owner in sources[s].readers && sources[s].version == version
  }

  function EntryProblem(b: Book, sources: map<SourceId, Source>, r: Bound, e: Entry): Check {
    if !L.Distinct(e.cites) then Fail(DUPLICATE_STATE_EVIDENCE)
    else if !L.Distinct(e.derivedFrom) then Fail(DUPLICATE_STATE_MEMORY)
    else if exists m :: m in e.derivedFrom && m !in r.memories then Fail(UNOBSERVED_STATE_MEMORY)
    else if exists c :: c in e.cites && c !in r.observed then Fail(UNOBSERVED_STATE_EVIDENCE)
    else if exists c :: c in e.cites && !CiteHolds(b, sources, r.owner, c) then Fail(STALE_STATE_EVIDENCE)
    else if e.question.Some? && forall c :: c in e.cites ==> !(c.OfMessage? && c.message == e.question.value) then Fail(QUESTION_EVIDENCE_REQUIRED)
    else Pass
  }

  // ---------------------------------------------------------------- the entry list

  /** Setting a key of an insertion-ordered map: an existing entry keeps its place. */
  function Put(entries: seq<Entry>, e: Entry): seq<Entry> {
    if entries == [] then [e] else if entries[0].id == e.id then [e] + entries[1..] else [entries[0]] + Put(entries[1..], e)
  }

  function Without(entries: seq<Entry>, id: EntryId): seq<Entry> {
    if entries == [] then [] else if entries[0].id == id then Without(entries[1..], id) else [entries[0]] + Without(entries[1..], id)
  }

  predicate Holds(entries: seq<Entry>, id: EntryId) { exists e :: e in entries && e.id == id }

  function PutAll(b: Book, sources: map<SourceId, Source>, r: Bound, entries: seq<Entry>, upsert: seq<Entry>): Result
  {
    if upsert == [] then Applied(Private(0, entries))
    else
      var before := PutAll(b, sources, r, entries, upsert[..|upsert| - 1]);
      if before.Refused? then before
      else
        var e := upsert[|upsert| - 1];
        :- EntryProblem(b, sources, r, e);
        Applied(Private(0, Put(before.state.entries, e)))
  }

  function RemoveAll(entries: seq<Entry>, ids: seq<EntryId>): Result {
    if ids == [] then Applied(Private(0, entries))
    else
      var before := RemoveAll(entries, ids[..|ids| - 1]);
      if before.Refused? then before
      else
        var id := ids[|ids| - 1];
        :- Ensure(Holds(before.state.entries, id), UNKNOWN_STATE_ENTRY);
        Applied(Private(0, Without(before.state.entries, id)))
  }

  function Ids(entries: seq<Entry>): seq<EntryId> { seq(|entries|, i requires 0 <= i < |entries| => entries[i].id) }

  predicate OneAssessment(entries: seq<Entry>) { forall i, j :: 0 <= i < j < |entries| ==> !(entries[i].assessment && entries[j].assessment) }

  predicate OneAnswerPerQuestion(entries: seq<Entry>) {
    forall i, j :: 0 <= i < j < |entries| && entries[i].question.Some? ==> entries[i].question != entries[j].question
  }

  // ---------------------------------------------------------------- a result

  function Patched(b: Book, sources: map<SourceId, Source>, r: Bound, current: Private, patch: Option<Patch>): Result {
    if patch.None? then Applied(current)
    else
      var p := patch.value;
      :- Ensure(p.owner == r.owner && p.session == r.session, STATE_OWNER_MISMATCH);
      :- Ensure(p.expectedVersion == current.version, STALE_PRIVATE_STATE);
      :- Ensure(r.context.Some? && p.observation == r.context.value.observation, STATE_OBSERVATION_MISMATCH);
      :- Ensure(L.Distinct(Ids(p.upsert) + p.remove), DUPLICATE_STATE_OPERATION);
      var put := PutAll(b, sources, r, current.entries, p.upsert);
      if put.Refused? then put else RemoveAll(put.state.entries, p.remove)
  }

  function Participants(who: People, session: SessionId): map<Owner, Member> { map o | o in who && who[o].session == session && who[o].enabled :: who[o].member }

  /** Profile, character and participants are what they were. */
  predicate IdentityCurrent(who: People, owner: Owner, i: Identity) {
    owner in who && i.profile == Some(who[owner].profile) && i.character == who[owner].character && i.participants == Participants(who, who[owner].session)
  }

  /** Whether the run still stands on the request that was stored for it. */
  function BindingProblem(r: Bound, who: People): Check {
    if r.context.None? || r.context.value.self != r.owner then Fail(STATE_CONTEXT_REQUIRED)
    else
      var x := r.context.value;
      if x.stateOwner != r.owner || x.stateSession != r.session then Fail(STATE_OWNER_MISMATCH)
      else if x.observation != x.digest then Fail(STATE_OBSERVATION_MISMATCH)
      else if !IdentityCurrent(who, r.owner, x.identity) then Fail(STALE_AGENT_IDENTITY)
      else Pass
  }

  /** `fits` says that the stored form stays within its capacity. */
  function Complete(b: Book, sources: map<SourceId, Source>, current: Private, r: Bound, who: People, patch: Option<Patch>, fits: bool): Result {
    if BindingProblem(r, who).Fail? then Refused(BindingProblem(r, who).code) else
    :- Ensure(r.owner in b.owners && b.owners[r.owner] == r.session, STATE_OWNER_MISMATCH);
    :- Ensure(r.context.value.version == current.version, STALE_PRIVATE_STATE);
    :- Ensure(forall m :: m in r.memories ==> L.Current(b, m) && b.memories[m].owner == r.owner, STALE_MEMORY_EVIDENCE);
    var next := Patched(b, sources, r, current, patch);
    if next.Refused? then next
    else
      var entries := next.state.entries;
      :- Ensure(OneAssessment(entries), DUPLICATE_PARTICIPATION_ASSESSMENT);
      :- Ensure(OneAnswerPerQuestion(entries), DUPLICATE_QUESTION_ASSESSMENT);
      :- Ensure(fits, PRIVATE_STATE_CAPACITY);
      Applied(Private(if entries == current.entries then current.version else current.version + 1, entries))
  }

  // ---------------------------------------------------------------- invalidation

  predicate CitesMessage(e: Entry, m: MessageId) { exists c :: c in e.cites && c.OfMessage? && c.message == m }

  predicate CitesSource(e: Entry, s: SourceId) { exists c :: c in e.cites && c.OfSource? && c.source == s }

  predicate DerivesFrom(e: Entry, lost: set<MemoryId>) { exists m :: m in e.derivedFrom && m in lost }

  /** Why an entry goes: it cites this message or this source, or derives from one of these memories. */
  datatype Loss = LostMessage(m: MessageId) | LostSource(s: SourceId) | LostMemories(memories: set<MemoryId>)

  predicate Hit(e: Entry, loss: Loss) {
    match loss
    case LostMessage(m) => CitesMessage(e, m)
    case LostSource(s) => CitesSource(e, s)
    case LostMemories(memories) => DerivesFrom(e, memories)
  }

  function Kept(entries: seq<Entry>, loss: Loss): seq<Entry> {
    if entries == [] then [] else if Hit(entries[0], loss) then Kept(entries[1..], loss) else [entries[0]] + Kept(entries[1..], loss)
  }

  function Stripped(p: Private, loss: Loss): Private {
    var kept := Kept(p.entries, loss);
    if |kept| == |p.entries| then p else Private(p.version + 1, kept)
  }

  function Invalidate(states: map<Owner, Private>, owners: map<Owner, SessionId>, session: SessionId, loss: Loss): map<Owner, Private> {
    map o | o in states :: if o in owners && owners[o] == session then Stripped(states[o], loss) else states[o]
  }

  // ---------------------------------------------------------------- freshness

  ghost predicate FreshEntry(w: World, owner: Owner, e: Entry) {
    && (forall c :: c in e.cites ==> CiteHolds(w.book, w.sources, owner, c))
    && (forall m :: m in e.derivedFrom ==> L.Current(w.book, m) && w.book.memories[m].owner == owner)
  }

  /** Every stored entry rests on what is current. */
  ghost predicate Fresh(w: World) {
    && LP.Ok(w.book)
    && forall o :: o in w.states ==> o in w.book.owners && forall e :: e in w.states[o].entries ==> FreshEntry(w, o, e)
  }

  lemma {:induction false} PutKeeps(entries: seq<Entry>, e: Entry)
    ensures forall x :: x in Put(entries, e) ==> x in entries || x == e
  {
    if entries != [] { PutKeeps(entries[1..], e); }
  }

  lemma {:induction false} WithoutKeeps(entries: seq<Entry>, id: EntryId)
    ensures forall x :: x in Without(entries, id) <==> x in entries && x.id != id
  {
    if entries != [] { WithoutKeeps(entries[1..], id); }
  }

  lemma {:induction false} KeptIs(entries: seq<Entry>, loss: Loss)
    ensures forall x :: x in Kept(entries, loss) <==> x in entries && !Hit(x, loss)
    ensures |Kept(entries, loss)| <= |entries| && (|Kept(entries, loss)| == |entries| ==> Kept(entries, loss) == entries)
  {
    if entries != [] { KeptIs(entries[1..], loss); }
  }

  lemma StrippedIs(p: Private, loss: Loss)
    ensures forall e :: e in Stripped(p, loss).entries <==> e in p.entries && !Hit(e, loss)
  {
    KeptIs(p.entries, loss);
  }

  lemma {:induction false} PutAllFresh(w: World, r: Bound, entries: seq<Entry>, upsert: seq<Entry>)
    requires forall e :: e in entries ==> FreshEntry(w, r.owner, e)
    requires forall m :: m in r.memories ==> L.Current(w.book, m) && w.book.memories[m].owner == r.owner
    ensures var out := PutAll(w.book, w.sources, r, entries, upsert); out.Applied? ==> forall e :: e in out.state.entries ==> FreshEntry(w, r.owner, e)
  {
    if upsert != [] {
      var k := |upsert| - 1;
      PutAllFresh(w, r, entries, upsert[..k]);
      var before := PutAll(w.book, w.sources, r, entries, upsert[..k]);
      if before.Applied? { PutKeeps(before.state.entries, upsert[k]); }
    }
  }

  lemma {:induction false} RemoveAllKeeps(entries: seq<Entry>, ids: seq<EntryId>)
    ensures var out := RemoveAll(entries, ids); out.Applied? ==> forall e :: e in out.state.entries <==> e in entries && e.id !in ids
  {
    if ids != [] {
      var k := |ids| - 1;
      RemoveAllKeeps(entries, ids[..k]);
      var before := RemoveAll(entries, ids[..k]);
      if before.Applied? { WithoutKeeps(before.state.entries, ids[k]); }
    }
  }

  /** A patch leaves fresh entries only, and only on top of the version that the request was bound to. */
  lemma CompleteIsFresh(w: World, r: Bound, who: People, patch: Option<Patch>, fits: bool)
    requires Fresh(w)
    ensures var out := Complete(w.book, w.sources, StateOf(w.states, r.owner), r, who, patch, fits);
      out.Applied? ==>
        && r.owner in w.book.owners && w.book.owners[r.owner] == r.session && r.context.Some?
        && r.context.value.version == StateOf(w.states, r.owner).version && r.context.value.digest == r.context.value.observation
        && IdentityCurrent(who, r.owner, r.context.value.identity)
        && (patch.Some? ==> patch.value.observation == r.context.value.observation && patch.value.owner == r.owner)
    ensures var out := Complete(w.book, w.sources, StateOf(w.states, r.owner), r, who, patch, fits);
      out.Applied? ==> forall e :: e in out.state.entries ==> FreshEntry(w, r.owner, e)
  {
    hide LP.Ok, PutAll, RemoveAll, EntryProblem;
    var current := StateOf(w.states, r.owner);
    var out := Complete(w.book, w.sources, current, r, who, patch, fits);
    if out.Applied? && patch.Some? {
      PutAllFresh(w, r, current.entries, patch.value.upsert);
      var put := PutAll(w.book, w.sources, r, current.entries, patch.value.upsert);
      RemoveAllKeeps(put.state.entries, patch.value.remove);
    }
  }

  // ---------------------------------------------------------------- histories

  /** What reaches the private states: a run's result (with the notes and changes of a memory run), and every change below them. */
  datatype Event =
    | Finished(bound: Bound, who: People, patch: Option<Patch>, fits: bool, notes: seq<Note>, changes: seq<L.Change>, ids: seq<MemoryId>, messages: map<MessageId, nat>)
    | Posted(message: MessageId, row: L.Message)
    | Changed(message: MessageId, revision: nat, deleted: bool)
    | Joined(owner: Owner, session: SessionId)
    | SourceApplied(source: SourceId, session: SessionId, readers: set<Owner>)

  /** The patch and the memory result of one run commit together; whatever the memories lost takes its entries with it. */
  ghost function Finish(w: World, r: Bound, who: People, patch: Option<Patch>, fits: bool, notes: seq<Note>, changes: seq<L.Change>, ids: seq<MemoryId>, messages: map<MessageId, nat>): World
  {
    var out := Complete(w.book, w.sources, StateOf(w.states, r.owner), r, who, patch, fits);
    if out.Refused? || |ids| < |notes| + |changes| then w
    else
      var saved := L.Save(w.book, L.Request(r.owner, r.session, messages, r.memories), notes, changes, ids);
      if saved.Refused? then w
      else World(saved.book, w.sources, Invalidate(w.states[r.owner := out.state], w.book.owners, r.session, LostMemories(saved.invalidated)))
  }

  ghost function Edit(w: World, m: MessageId, revision: nat, deleted: bool): World {
    if m !in w.book.messages || w.book.messages[m].deleted || revision <= w.book.messages[m].revision then w
    else
      var session := w.book.messages[m].session;
      var out := L.ChangeMessage(w.book, m, revision, deleted);
      World(out.book, w.sources,
            Invalidate(Invalidate(w.states, w.book.owners, session, LostMessage(m)), w.book.owners, session, LostMemories(out.invalidated)))
  }

  function Revise(w: World, s: SourceId, session: SessionId, readers: set<Owner>): World {
    if s !in w.sources then w.(sources := w.sources[s := Source(session, 1, readers)])
    else
      var was := w.sources[s];
      World(w.book, w.sources[s := Source(was.session, was.version + 1, readers)], Invalidate(w.states, w.book.owners, was.session, LostSource(s)))
  }

  ghost function Next(w: World, e: Event): World {
    match e
    case Finished(r, who, patch, fits, notes, changes, ids, messages) => Finish(w, r, who, patch, fits, notes, changes, ids, messages)
    case Posted(m, row) => w.(book := LP.Next(w.book, LP.Posted(m, row)))
    case Changed(m, revision, deleted) => Edit(w, m, revision, deleted)
    case Joined(owner, session) => w.(book := LP.Next(w.book, LP.Joined(owner, session)))
    case SourceApplied(s, session, readers) => Revise(w, s, session, readers)
  }

  lemma AddingKeepsFresh(w: World, e: Event)
    requires Fresh(w) && (e.Posted? || e.Joined?)
    ensures Fresh(Next(w, e))
  {
    var event := if e.Posted? then LP.Posted(e.message, e.row) else LP.Joined(e.owner, e.session);
    LP.AddingKeepsOk(w.book, event);
    var w' := Next(w, e);
    forall o, x | o in w'.states && x in w'.states[o].entries ensures FreshEntry(w', o, x) {
      assert FreshEntry(w, o, x);
      forall c | c in x.cites ensures CiteHolds(w'.book, w'.sources, o, c) { assert CiteHolds(w.book, w.sources, o, c); }
      forall m | m in x.derivedFrom ensures L.Current(w'.book, m) { assert L.Current(w.book, m); }
    }
  }

  lemma ReviseKeepsFresh(w: World, s: SourceId, session: SessionId, readers: set<Owner>)
    requires Fresh(w)
    ensures Fresh(Revise(w, s, session, readers))
  {
    hide LP.Ok, L.Current, Stripped;
    var w' := Revise(w, s, session, readers);
    forall o, x | o in w'.states && x in w'.states[o].entries ensures FreshEntry(w', o, x) {
      if s in w.sources { StrippedIs(w.states[o], LostSource(s)); }
      assert FreshEntry(w, o, x);
      forall c | c in x.cites ensures CiteHolds(w'.book, w'.sources, o, c) { assert CiteHolds(w.book, w.sources, o, c); }
    }
  }

  lemma ChangeKeepsFresh(w: World, m: MessageId, revision: nat, deleted: bool)
    requires Fresh(w)
    ensures Fresh(Edit(w, m, revision, deleted))
  {
    hide LP.Ok, L.Current, L.Affected, Stripped, L.Marked;
    var w' := Edit(w, m, revision, deleted);
    if w' != w {
      LP.ChangeMessageKeepsOk(w.book, m, revision, deleted);
      var session := w.book.messages[m].session;
      var first := Invalidate(w.states, w.book.owners, session, LostMessage(m));
      var lost := L.ChangeMessage(w.book, m, revision, deleted).invalidated;
      ChangedBook(w.book, m, revision, deleted);
      forall o, x | o in w'.states && x in w'.states[o].entries ensures FreshEntry(w', o, x) {
        StrippedIs(w.states[o], LostMessage(m));
        StrippedIs(first[o], LostMemories(lost));
        assert FreshEntry(w, o, x);
        forall c | c in x.cites ensures CiteHolds(w'.book, w'.sources, o, c) { assert CiteHolds(w.book, w.sources, o, c); }
        forall y | y in x.derivedFrom ensures y in w'.book.memories && L.Current(w'.book, y) && w'.book.memories[y].owner == o { MemoryStays(w.book, m, revision, deleted, y); }
      }
    }
  }

  lemma ChangedBook(b: Book, m: MessageId, revision: nat, deleted: bool)
    requires m in b.messages
    ensures var b' := L.ChangeMessage(b, m, revision, deleted).book;
      b'.owners == b.owners && b'.messages == b.messages[m := b.messages[m].(revision := revision, deleted := deleted)]
  {
  }

  lemma MemoryStays(b: Book, m: MessageId, revision: nat, deleted: bool, y: MemoryId)
    requires LP.Ok(b) && m in b.messages && revision > b.messages[m].revision && L.Current(b, y)
    requires y !in L.ChangeMessage(b, m, revision, deleted).invalidated || b.owners[b.memories[y].owner] != b.messages[m].session
    ensures var b' := L.ChangeMessage(b, m, revision, deleted).book; y in b'.memories && L.Current(b', y) && b'.memories[y].owner == b.memories[y].owner
  {
    LP.EditedClosure(b, m, revision, deleted);
    LP.EditInvalidatesExactly(b, m, revision, deleted, y);
  }

  lemma FinishKeepsFresh(w: World, r: Bound, who: People, patch: Option<Patch>, fits: bool, notes: seq<Note>, changes: seq<L.Change>, ids: seq<MemoryId>, messages: map<MessageId, nat>)
    requires Fresh(w)
    ensures Fresh(Finish(w, r, who, patch, fits, notes, changes, ids, messages))
  {
    hide LP.Ok, L.Current, Complete, Stripped, L.Save;
    var out := Complete(w.book, w.sources, StateOf(w.states, r.owner), r, who, patch, fits);
    var w' := Finish(w, r, who, patch, fits, notes, changes, ids, messages);
    if out.Applied? && |ids| >= |notes| + |changes| {
      CompleteIsFresh(w, r, who, patch, fits);
      CompleteIsBound(w.book, w.sources, StateOf(w.states, r.owner), r, who, patch, fits);
      var req := L.Request(r.owner, r.session, messages, r.memories);
      var saved := L.Save(w.book, req, notes, changes, ids);
      if saved.Saved? {
        LP.SaveKeepsOk(w.book, req, notes, changes, ids);
        SaveFrame(w.book, req, notes, changes, ids);
        var states := w.states[r.owner := out.state];
        forall o, x | o in w'.states && x in w'.states[o].entries ensures FreshEntry(w', o, x) {
          StrippedIs(states[o], LostMemories(saved.invalidated));
          assert FreshEntry(w, o, x);
          forall c | c in x.cites ensures CiteHolds(w'.book, w'.sources, o, c) { assert CiteHolds(w.book, w.sources, o, c); }
          forall y | y in x.derivedFrom ensures y in w'.book.memories && L.Current(w'.book, y) && w'.book.memories[y].owner == o { RowStaysCurrent(w.book, saved.book, saved.invalidated, req, y); }
        }
      }
    }
  }

  lemma CompleteIsBound(b: Book, sources: map<SourceId, Source>, current: Private, r: Bound, who: People, patch: Option<Patch>, fits: bool)
    requires Complete(b, sources, current, r, who, patch, fits).Applied?
    ensures r.owner in b.owners && b.owners[r.owner] == r.session
  {
  }

  /** A result touches only rows of its owner, and every row that it touches is reported. */
  ghost predicate Frame(b: Book, b': Book, lost: set<MemoryId>, owner: Owner) {
    && b'.owners == b.owners && b'.messages == b.messages && b.memories.Keys <= b'.memories.Keys
    && (forall x :: x in b.memories && x !in lost ==> b'.memories[x] == b.memories[x])
    && (forall x :: x in b.memories && b.memories[x].owner != owner ==> b'.memories[x] == b.memories[x])
    && (forall x :: x in b.memories ==> b'.memories[x].owner == b.memories[x].owner)
  }

  lemma RowStaysCurrent(b: Book, b': Book, lost: set<MemoryId>, r: Request, y: MemoryId)
    requires Frame(b, b', lost, r.owner) && L.Current(b, y) && (y !in lost || b.memories[y].owner != r.owner)
    ensures y in b'.memories && L.Current(b', y) && b'.memories[y].owner == b.memories[y].owner
  {
    forall e | e in b.memories[y].evidence ensures L.RefHolds(b', e) { assert L.RefHolds(b, e); }
  }

  lemma FrameTransitive(b: Book, mid: Book, b': Book, lost: set<MemoryId>, more: set<MemoryId>, owner: Owner)
    requires Frame(b, mid, lost, owner) && Frame(mid, b', more, owner)
    ensures Frame(b, b', lost + more, owner)
  {
  }

  lemma SaveFrame(b: Book, r: Request, notes: seq<Note>, changes: seq<L.Change>, ids: seq<MemoryId>)
    requires LP.Ok(b) && LP.Bound(b, r) && |ids| >= |notes| + |changes|
    ensures var out := L.Save(b, r, notes, changes, ids); out.Saved? ==> Frame(b, out.book, out.invalidated, r.owner)
  {
    hide LP.Ok, Frame, L.SaveNotes, L.SaveChanges;
    LP.SaveNotesKeepsOk(b, r, notes, ids);
    SaveNotesFrame(b, r, notes, ids);
    var first := L.SaveNotes(b, r, notes, ids);
    if first.Saved? {
      SaveChangesFrame(first.book, r, changes, ids[|notes|..]);
      var second := L.SaveChanges(first.book, r, changes, ids[|notes|..]);
      if second.Saved? { FrameTransitive(b, first.book, second.book, first.invalidated, second.invalidated, r.owner); }
    }
  }

  lemma FrameRefl(b: Book, owner: Owner)
    ensures Frame(b, b, {}, owner)
  {
  }

  lemma {:induction false} SaveNotesFrame(b: Book, r: Request, notes: seq<Note>, ids: seq<MemoryId>)
    requires |ids| >= |notes|
    ensures var out := L.SaveNotes(b, r, notes, ids); out.Saved? ==> Frame(b, out.book, out.invalidated, r.owner)
  {
    hide L.SaveNote, Frame;
    FrameRefl(b, r.owner);
    if notes != [] {
      var k := |notes| - 1;
      SaveNotesFrame(b, r, notes[..k], ids);
      var before := L.SaveNotes(b, r, notes[..k], ids);
      if before.Saved? {
        NoteFrame(before.book, r, notes[k], ids[k]);
        var now := L.SaveNote(before.book, r, notes[k], ids[k]);
        if now.Saved? { FrameTransitive(b, before.book, now.book, before.invalidated, now.invalidated, r.owner); }
      }
    }
  }

  lemma NoteFrame(b: Book, r: Request, note: Note, id: MemoryId)
    ensures var out := L.SaveNote(b, r, note, id); out.Saved? ==> Frame(b, out.book, out.invalidated, r.owner)
  {
    hide L.SaveNote;
    LP.SaveNoteFrame(b, r, note, id);
  }

  lemma {:induction false} SaveChangesFrame(b: Book, r: Request, changes: seq<L.Change>, ids: seq<MemoryId>)
    requires LP.Ok(b) && LP.Bound(b, r) && |ids| >= |changes|
    ensures var out := L.SaveChanges(b, r, changes, ids); out.Saved? ==> Frame(b, out.book, out.invalidated, r.owner)
  {
    hide LP.Ok, L.SaveChange, Frame;
    FrameRefl(b, r.owner);
    if changes != [] {
      var k := |changes| - 1;
      SaveChangesFrame(b, r, changes[..k], ids);
      LP.SaveChangesKeepsOk(b, r, changes[..k], ids);
      var before := L.SaveChanges(b, r, changes[..k], ids);
      if before.Saved? {
        ChangeFrame(before.book, r, changes[k], ids[k]);
        var now := L.SaveChange(before.book, r, changes[k], ids[k]);
        if now.Saved? { FrameTransitive(b, before.book, now.book, before.invalidated, now.invalidated, r.owner); }
      }
    }
  }

  lemma ChangeFrame(b: Book, r: Request, c: L.Change, id: MemoryId)
    requires LP.Ok(b) && LP.Bound(b, r)
    ensures var out := L.SaveChange(b, r, c, id); out.Saved? ==> Frame(b, out.book, out.invalidated, r.owner)
  {
    hide L.SaveChange, LP.ConflictComplete;
    if L.SaveChange(b, r, c, id).Saved? {
      LP.SaveChangeFrame(b, r, c, id);
      LostAreOwn(b, r, c, id);
    }
  }

  lemma LostAreOwn(b: Book, r: Request, c: L.Change, id: MemoryId)
    requires LP.RowsOk(b) && LP.Bound(b, r) && L.SaveChange(b, r, c, id).Saved?
    ensures forall x :: x in b.memories && x in L.SaveChange(b, r, c, id).invalidated ==> b.memories[x].owner == r.owner
  {
    hide L.ChangeProblem, L.Reconciled, L.Descendants, L.NewStatus, L.Superseded, L.Contradicted, L.Lineage, L.Inherited, L.RefsOf;
    LP.ChangeFacts(b, r, c);
    LP.LineageInsertable(b, r, c);
    var refs := L.RefsOf(b, c.sources) + L.Inherited(b, L.Lineage(b, r, c));
    LP.InsertKeepsRows(b, r.owner, id, c.text, refs, Some(c.meaning), L.Lineage(b, r, c), L.NewStatus(b, r, c));
    var inserted := L.Insert(b, r.owner, id, c.text, refs, Some(c.meaning), L.Lineage(b, r, c), L.NewStatus(b, r, c)).book;
    var changed := L.Superseded(b, r, c) + L.Contradicted(b, r, c);
    LP.ReconciledReports(inserted, L.Superseded(b, r, c), L.Contradicted(b, r, c), id);
    forall x | x in b.memories && x in L.Descendants(inserted, changed, Some(id)) ensures b.memories[x].owner == r.owner { DescendantsShareOwner(inserted, changed, Some(id), x, r.owner); }
  }

  lemma DescendantsShareOwner(b: Book, roots: set<MemoryId>, spared: Option<MemoryId>, x: MemoryId, owner: Owner)
    requires LP.RowsOk(b) && x in L.Descendants(b, roots, spared)
    requires forall y :: y in roots ==> y in b.memories && b.memories[y].owner == owner
    ensures b.memories[x].owner == owner
  {
    var path :| L.IsPath(b, roots, spared, path) && path[|path| - 1] == x;
    LP.PathCarriesEvidence(b, roots, spared, path);
  }

  lemma NextKeepsFresh(w: World, e: Event)
    requires Fresh(w)
    ensures Fresh(Next(w, e))
  {
    hide Fresh, Finish, Edit, Revise;
    match e
    case Finished(r, who, patch, fits, notes, changes, ids, messages) => FinishKeepsFresh(w, r, who, patch, fits, notes, changes, ids, messages);
    case Posted(_, _) => AddingKeepsFresh(w, e);
    case Changed(m, revision, deleted) => ChangeKeepsFresh(w, m, revision, deleted);
    case Joined(_, _) => AddingKeepsFresh(w, e);
    case SourceApplied(s, session, readers) => ReviseKeepsFresh(w, s, session, readers);
  }

  ghost function Run(w: World, events: seq<Event>): (w': World)
    decreases |events|
  {
    if events == [] then w else Run(Next(w, events[0]), events[1..])
  }

  lemma {:induction false} RunKeepsFresh(w: World, events: seq<Event>)
    requires Fresh(w)
    ensures Fresh(Run(w, events))
    decreases |events|
  {
    hide Fresh, Next;
    if events != [] {
      NextKeepsFresh(w, events[0]);
      RunKeepsFresh(Next(w, events[0]), events[1..]);
    }
  }

  const Empty: World := World(LP.Blank, map[], map[])

  lemma EmptyIsFresh()
    ensures Fresh(Empty)
  {
  }

  /** In every state that results, edits, deletions, source revisions and memory reconciliation can lead to, each stored entry cites only
      undeleted messages at their present revision, readable sources at their present version, and memories that are still current. */
  lemma EntriesStayFresh(events: seq<Event>)
    ensures Fresh(Run(Empty, events))
  {
    EmptyIsFresh();
    RunKeepsFresh(Empty, events);
  }
}
