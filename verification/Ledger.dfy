/** The memory ledger: private interpretations of observed messages, their evidence, and how one replaces or contradicts another. */
module Ledger {
  import opened Wrappers

  type Owner = nat
  type SessionId = nat
  type MessageId = nat
  type MemoryId = nat

  /** A text and its normal form; keys and values are compared by normal form only. */
  datatype Phrase = Phrase(raw: nat, normal: nat)

  datatype Ref = Ref(message: MessageId, version: nat)

  datatype Epistemic = SelfReport | Hearsay | Inference | Uncertain

  datatype Meaning = Meaning(subject: Option<Owner>, key: Phrase, value: Phrase, epistemic: Epistemic, validFrom: Option<nat>, validTo: Option<nat>)

  datatype Status = ACTIVE | SUPERSEDED | CONFLICT | INVALID

  datatype Memory = Memory(owner: Owner, text: Phrase, sources: set<MessageId>, evidence: set<Ref>, meaning: Option<Meaning>,
                           status: Status, sequence: nat, parents: set<MemoryId>)

  datatype Message = Message(session: SessionId, revision: nat, deleted: bool, author: Option<Owner>)

  datatype Book = Book(owners: map<Owner, SessionId>, messages: map<MessageId, Message>, memories: map<MemoryId, Memory>, counters: map<Owner, nat>)

  /** What the run's request showed its owner. */
  datatype Request = Request(owner: Owner, session: SessionId, messages: map<MessageId, nat>, memories: set<MemoryId>)

  datatype Operation = Add | Merge | Correct | Conflict

  datatype Note = Note(text: Phrase, sources: seq<MessageId>)

  datatype Change = Change(operation: Operation, text: Phrase, sources: seq<MessageId>, meaning: Meaning, targets: seq<MemoryId>, parents: seq<MemoryId>)

  datatype Code =
    | DUPLICATE_MEMORY_SOURCE | INVALID_MEMORY_SOURCE | INVALID_MEMORY_SUBJECT | MEMORY_NOT_SUBJECT_REPORT | DUPLICATE_MEMORY_TARGET
    | UNOBSERVED_MEMORY_TARGET | MEMORY_NOT_CURRENT | MEMORY_OWNER_MISMATCH | MEMORY_TARGET_MEANING_MISMATCH | MEMORY_TARGET_TIME_MISMATCH
    | MEMORY_MERGE_ATTRIBUTION_MISMATCH | MEMORY_MERGE_VALUE_MISMATCH | MEMORY_EVIDENCE_CAPACITY | UNKNOWN_OWNER | PRIMARY_KEY

  datatype Check = Pass | Fail(code: Code)
  {
    predicate IsFailure() { Fail? }
    function PropagateFailure(): Result requires Fail? { Refused(code) }
  }

  datatype Result = Saved(book: Book, invalidated: set<MemoryId>) | Refused(code: Code)

  function Ensure(condition: bool, code: Code): Check { if condition then Pass else Fail(code) }

  predicate Distinct<T(==)>(s: seq<T>) { forall i, j :: 0 <= i < j < |s| ==> s[i] != s[j] }

  function Items<T>(s: seq<T>): set<T> { set x | x in s }

  // ---------------------------------------------------------------- which memories still hold

  predicate RefHolds(b: Book, e: Ref) {
    e.message in b.messages && !b.messages[e.message].deleted && b.messages[e.message].revision == e.version
  }

  predicate SourceHolds(b: Book, owner: Owner, m: MessageId) {
    owner in b.owners && m in b.messages && b.messages[m].session == b.owners[owner] && !b.messages[m].deleted
  }

  /** The shared predicate of recall, lookup and paging. */
  predicate Current(b: Book, id: MemoryId) {
    && id in b.memories && b.memories[id].status != SUPERSEDED && b.memories[id].status != INVALID
    && (forall m :: m in b.memories[id].sources ==> SourceHolds(b, b.memories[id].owner, m))
    && (forall e :: e in b.memories[id].evidence ==> RefHolds(b, e))
  }

  predicate SameMeaning(x: Meaning, y: Meaning) { x.subject == y.subject && x.key.normal == y.key.normal }

  /** An open end is unbounded. */
  predicate Overlaps(x: Meaning, y: Meaning) {
    && (y.validTo.None? || x.validFrom.GetOr(0) < y.validTo.value)
    && (x.validTo.None? || y.validFrom.GetOr(0) < x.validTo.value)
  }

  predicate Competes(b: Book, id: MemoryId, owner: Owner, meaning: Meaning) {
    && Current(b, id) && b.memories[id].owner == owner && b.memories[id].meaning.Some?
    && SameMeaning(b.memories[id].meaning.value, meaning) && Overlaps(b.memories[id].meaning.value, meaning)
  }

  predicate SaysTheSame(x: Meaning, y: Meaning) {
    x.value.normal == y.value.normal && x.epistemic == y.epistemic && x.validFrom == y.validFrom && x.validTo == y.validTo
  }

  function Matching(b: Book, owner: Owner, meaning: Meaning): set<MemoryId> {
    set id | id in b.memories && Competes(b, id, owner, meaning)
  }

  function Equivalent(b: Book, owner: Owner, meaning: Meaning): set<MemoryId> {
    set id | id in b.memories && Competes(b, id, owner, meaning) && SaysTheSame(b.memories[id].meaning.value, meaning)
  }

  // ---------------------------------------------------------------- descendants

  /** Each memory after the first was derived from the one before it, and none of them is `spared`. */
  predicate IsPath(b: Book, roots: set<MemoryId>, spared: Option<MemoryId>, path: seq<MemoryId>) {
    && |path| >= 2 && path[0] in roots
    && forall i :: 0 < i < |path| ==> path[i] in b.memories && path[i - 1] in b.memories[path[i]].parents && spared != Some(path[i])
  }

  ghost predicate Descends(b: Book, roots: set<MemoryId>, spared: Option<MemoryId>, x: MemoryId) {
    exists path :: IsPath(b, roots, spared, path) && path[|path| - 1] == x
  }

  ghost function Descendants(b: Book, roots: set<MemoryId>, spared: Option<MemoryId>): set<MemoryId> {
    set x | x in b.memories && Descends(b, roots, spared, x)
  }

  // ---------------------------------------------------------------- rows

  function Marked(b: Book, ids: set<MemoryId>, status: Status): Book {
    b.(memories := map m | m in b.memories :: if m in ids then b.memories[m].(status := status) else b.memories[m])
  }

  function RefsOf(b: Book, ids: seq<MessageId>): set<Ref>
    requires forall m :: m in ids ==> m in b.messages
  {
    set m | m in ids :: Ref(m, b.messages[m].revision)
  }

  predicate Supplied(b: Book, r: Request, m: MessageId) {
    && m in r.messages && m in b.messages && b.messages[m].session == r.session && !b.messages[m].deleted
    && b.messages[m].revision == r.messages[m]
  }

  function EvidenceProblem(b: Book, r: Request, ids: seq<MessageId>): Check {
    if !Distinct(ids) then Fail(DUPLICATE_MEMORY_SOURCE)
    else if exists m :: m in ids && !Supplied(b, r, m) then Fail(INVALID_MEMORY_SOURCE)
    else Pass
  }

  function ObservedProblem(b: Book, r: Request, ids: seq<MemoryId>): Check {
    if !Distinct(ids) then Fail(DUPLICATE_MEMORY_TARGET)
    else if exists m :: m in ids && m !in r.memories then Fail(UNOBSERVED_MEMORY_TARGET)
    else if exists m :: m in ids && !(Current(b, m) && b.memories[m].owner == r.owner) then Fail(MEMORY_NOT_CURRENT)
    else Pass
  }

  function Cited(refs: set<Ref>): set<MessageId> { set e | e in refs :: e.message }

  function Insert(b: Book, owner: Owner, id: MemoryId, text: Phrase, refs: set<Ref>, meaning: Option<Meaning>, parents: set<MemoryId>, status: Status): Result {
    if |refs| > 64 then Refused(MEMORY_EVIDENCE_CAPACITY) else
    :- Ensure(owner in b.counters, UNKNOWN_OWNER);
    :- Ensure(id !in b.memories, PRIMARY_KEY);
    Saved(b.(counters := b.counters[owner := b.counters[owner] + 1],
             memories := b.memories[id := Memory(owner, text, Cited(refs), refs, meaning, status, b.counters[owner] + 1, parents)]), {})
  }

  // ---------------------------------------------------------------- notes without a meaning

  predicate SameNote(b: Book, owner: Owner, note: Note, id: MemoryId) {
    Current(b, id) && b.memories[id].owner == owner && b.memories[id].text == note.text && b.memories[id].sources == Items(note.sources)
  }

  function SaveNote(b: Book, r: Request, note: Note, id: MemoryId): Result {
    var verdict := EvidenceProblem(b, r, note.sources);
    :- verdict;
    if exists m :: m in b.memories && SameNote(b, r.owner, note, m) then Saved(b, {})
    else Insert(b, r.owner, id, note.text, RefsOf(b, note.sources), None, {}, ACTIVE)
  }

  // ---------------------------------------------------------------- changes

  function MeaningOf(b: Book, id: MemoryId): Option<Meaning> { if id in b.memories then b.memories[id].meaning else None }

  predicate SameFrame(x: Meaning, y: Meaning) { x.epistemic == y.epistemic && x.validFrom == y.validFrom && x.validTo == y.validTo }

  /** The first target that the change cannot address. */
  function TargetProblem(b: Book, c: Change, targets: seq<MemoryId>): Check {
    if targets == [] then Pass
    else
      var meaning := MeaningOf(b, targets[0]);
      if meaning.None? || !SameMeaning(meaning.value, c.meaning) then Fail(MEMORY_TARGET_MEANING_MISMATCH)
      else if !Overlaps(meaning.value, c.meaning) then Fail(MEMORY_TARGET_TIME_MISMATCH)
      else if c.operation == Merge && !SameFrame(meaning.value, c.meaning) then Fail(MEMORY_MERGE_ATTRIBUTION_MISMATCH)
      else TargetProblem(b, c, targets[1..])
  }

  predicate DiffersInValue(b: Book, c: Change, t: MemoryId) { MeaningOf(b, t).Some? && MeaningOf(b, t).value.value.normal != c.meaning.value.normal }

  function SubjectProblem(b: Book, r: Request, c: Change): Check {
    if c.meaning.subject.Some? && (c.meaning.subject.value !in b.owners || b.owners[c.meaning.subject.value] != r.session) then Fail(INVALID_MEMORY_SUBJECT)
    else if c.meaning.epistemic == SelfReport && exists m :: m in c.sources && m in b.messages && b.messages[m].author != c.meaning.subject then Fail(MEMORY_NOT_SUBJECT_REPORT)
    else Pass
  }

  function ChangeProblem(b: Book, r: Request, c: Change): Check {
    if EvidenceProblem(b, r, c.sources).Fail? then EvidenceProblem(b, r, c.sources)
    else if SubjectProblem(b, r, c).Fail? then SubjectProblem(b, r, c)
    else if ObservedProblem(b, r, c.targets).Fail? then ObservedProblem(b, r, c.targets)
    else if ObservedProblem(b, r, c.parents).Fail? then ObservedProblem(b, r, c.parents)
    else if TargetProblem(b, c, c.targets).Fail? then TargetProblem(b, c, c.targets)
    else if c.operation == Merge && exists t :: t in c.targets && DiffersInValue(b, c, t) then Fail(MEMORY_MERGE_VALUE_MISMATCH)
    else Pass
  }

  /** A self report with something new to say against every target. */
  predicate IsCorrection(b: Book, c: Change) {
    && c.operation == Correct && c.meaning.epistemic == SelfReport
    && forall t :: t in c.targets ==> exists m :: m in c.sources && (t in b.memories ==> m !in b.memories[t].sources)
  }

  function Conflicts(b: Book, r: Request, c: Change): set<MemoryId> {
    Matching(b, r.owner, c.meaning) - Equivalent(b, r.owner, c.meaning) - (if IsCorrection(b, c) then Items(c.targets) else {})
  }

  function NewStatus(b: Book, r: Request, c: Change): Status {
    if (exists p :: p in c.parents && p in b.memories && b.memories[p].status == CONFLICT) || c.operation == Conflict
       || (c.operation == Correct && !IsCorrection(b, c)) || Conflicts(b, r, c) != {}
    then CONFLICT else ACTIVE
  }

  /** The memories that the new one is derived from. */
  function Lineage(b: Book, r: Request, c: Change): set<MemoryId> {
    var equivalent := Equivalent(b, r.owner, c.meaning);
    if c.operation == Merge || equivalent != {} then Items(c.parents) + equivalent + (if c.operation == Merge then Items(c.targets) else {}) else Items(c.parents)
  }

  function Inherited(b: Book, parents: set<MemoryId>): set<Ref> { set p, e | p in parents && p in b.memories && e in b.memories[p].evidence :: e }

  function Superseded(b: Book, r: Request, c: Change): set<MemoryId> {
    Equivalent(b, r.owner, c.meaning) + (if c.operation == Merge || IsCorrection(b, c) then Items(c.targets) else {})
  }

  function Contradicted(b: Book, r: Request, c: Change): set<MemoryId> {
    Conflicts(b, r, c) + (if c.operation == Correct && !IsCorrection(b, c) then Items(c.targets) else {})
  }

  /** First the replaced memories are marked, then the contradicted ones, then everything derived from either. */
  ghost function Reconciled(b: Book, superseded: set<MemoryId>, contradicted: set<MemoryId>, id: MemoryId): Result {
    var changed := superseded + contradicted;
    var lost := Descendants(b, changed, Some(id));
    Saved(Marked(Marked(Marked(b, superseded, SUPERSEDED), contradicted, CONFLICT), lost, INVALID), changed + lost)
  }

  ghost function SaveChange(b: Book, r: Request, c: Change, id: MemoryId): Result {
    var verdict := ChangeProblem(b, r, c);
    :- verdict;
    var refs := RefsOf(b, c.sources) + Inherited(b, Lineage(b, r, c));
    match Insert(b, r.owner, id, c.text, refs, Some(c.meaning), Lineage(b, r, c), NewStatus(b, r, c))
    case Refused(code) => Refused(code)
    case Saved(inserted, _) => Reconciled(inserted, Superseded(b, r, c), Contradicted(b, r, c), id)
  }

  // ---------------------------------------------------------------- a whole result

  /** A refusal anywhere rolls the whole result back. */
  ghost function Then(first: Result, f: Book -> Result): Result {
    match first
    case Refused(code) => Refused(code)
    case Saved(b, lost) => match f(b) case Refused(code) => Refused(code) case Saved(b', more) => Saved(b', lost + more)
  }

  ghost function SaveNotes(b: Book, r: Request, notes: seq<Note>, ids: seq<MemoryId>): Result
    requires |ids| >= |notes|
  {
    if notes == [] then Saved(b, {})
    else Then(SaveNotes(b, r, notes[..|notes| - 1], ids), x => SaveNote(x, r, notes[|notes| - 1], ids[|notes| - 1]))
  }

  ghost function SaveChanges(b: Book, r: Request, changes: seq<Change>, ids: seq<MemoryId>): Result
    requires |ids| >= |changes|
  {
    if changes == [] then Saved(b, {})
    else Then(SaveChanges(b, r, changes[..|changes| - 1], ids), x => SaveChange(x, r, changes[|changes| - 1], ids[|changes| - 1]))
  }

  ghost function Save(b: Book, r: Request, notes: seq<Note>, changes: seq<Change>, ids: seq<MemoryId>): Result
    requires |ids| >= |notes| + |changes|
  {
    Then(SaveNotes(b, r, notes, ids), x => SaveChanges(x, r, changes, ids[|notes|..]))
  }

  // ---------------------------------------------------------------- messages

  /** Everything in the session that cites the message, and everything derived from that. */
  function Citing(b: Book, session: SessionId, m: MessageId): set<MemoryId> {
    set id | id in b.memories && m in b.memories[id].sources && b.memories[id].owner in b.owners && b.owners[b.memories[id].owner] == session
  }

  ghost function Affected(b: Book, session: SessionId, m: MessageId): set<MemoryId> {
    Citing(b, session, m) + Descendants(b, Citing(b, session, m), None)
  }

  ghost function InvalidateMessage(b: Book, session: SessionId, m: MessageId): Result {
    Saved(Marked(b, Affected(b, session, m), INVALID), Affected(b, session, m))
  }

  /** An edit or deletion gives the message a later revision and invalidates in the same transaction. */
  ghost function ChangeMessage(b: Book, m: MessageId, revision: nat, deleted: bool): Result
    requires m in b.messages
  {
    var x := b.messages[m];
    InvalidateMessage(b.(messages := b.messages[m := x.(revision := revision, deleted := deleted)]), x.session, m)
  }
}
