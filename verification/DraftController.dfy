/** The draft store, the page's controller and the server's command receipts as objects, proved against Drafts. */
module DraftController {
  import opened Wrappers
  import opened Drafts

  /** The rows and the generation of one scope in the browser's database. */
  class Shelf {
    var generation: nat
    var records: map<Key, Record>

    function Now(): Store
      reads this
    {
      Store(generation, records)
    }

    constructor ()
      ensures Now() == Store(0, map[])
    {
      generation, records := 0, map[];
    }

    method Update(k: Key, base: Record, expected: nat, edit: Record -> Change) returns (out: Change)
      modifies this
      ensures (Now(), out) == Write(old(Now()), k, base, expected, edit)
    {
      if generation != expected { return Refused(DRAFT_SCOPE_REVOKED); }
      var current := RecordOf(records, k);
      if current.version != base.version { return Refused(DRAFT_CONFLICT); }
      out := edit(current);
      if out.Changed? {
        out := Changed(out.row.(version := current.version + 1));
        records := records[k := out.row];
      }
    }

    /** What other pages do while one waits. */
    method Meanwhile(others: Store -> Store)
      modifies this
      ensures Now() == others(old(Now()))
    {
      var after := others(Store(generation, records));
      generation, records := after.generation, after.records;
    }

    method Wipe()
      modifies this
      ensures Now() == Cleared(old(Now()))
    {
      generation := generation + 1;
      var todo := records.Keys;
      while todo != {}
        invariant records.Keys == todo && generation == old(generation) + 1
        decreases todo
      {
        var k :| k in todo;
        todo := todo - {k};
        records := records - {k};
      }
      assert records == map[];
    }
  }

  // ---------------------------------------------------------------- operations with several waits

  /** What happens while one operation waits: whether the page still lives after the n-th write and the n-th reading, and what other pages
      do to the store before the n-th reading. */
  datatype Waits = Waits(afterWrite: nat -> bool, afterRead: nat -> bool, others: (nat, Store) -> Store)

  /** What the server says of a submission. */
  datatype Lookup = Found(message: MessageId) | Missing | Failing

  /** How a request to send ends. */
  datatype Reply = Replied(message: MessageId) | Lost | Declined

  /** Up to three attempts to acknowledge; after a conflict the stored row is read again. */
  function AckLoop(s: Store, t: Tab, k: Key, key: OutboxKey, message: MessageId, attempt: nat, w: Waits): (r: (Store, Tab, Option<Code>))
    requires attempt <= 2
    ensures r.1.local == t.local && r.1.queue == t.queue && r.1.active == t.active && (forall j :: j in r.1.errors ==> j in t.errors && r.1.errors[j] == t.errors[j])
    decreases 3 - attempt
  {
    var (s1, t1, out) := Mutate(s, t, k, row => Acknowledged(row, key, message), w.afterWrite(attempt));
    if out.Changed? then (s1, t1, None)
    else if out.code != DRAFT_CONFLICT || attempt == 2 then (s1, t1, Some(out.code))
    else
      var s2 := w.others(attempt, s1);
      if !w.afterRead(attempt) then (s2, t1.(ready := false), Some(DRAFT_STORAGE_UNAVAILABLE))
      else if s2.generation != t1.generation then (s2, t1, Some(DRAFT_SCOPE_REVOKED))
      else if k !in s2.records then (s2, t1, Some(DRAFT_OUTBOX_CHANGED))
      else AckLoop(s2, RereadTab(s2, t1, k), k, key, message, attempt + 1, w)
  }

  /** One attempt, with the reading that follows a conflict. */
  lemma AckOnce(s: Store, t: Tab, k: Key, key: OutboxKey, message: MessageId, attempt: nat, w: Waits)
    requires attempt <= 2
    ensures var (s1, t1, out) := Mutate(s, t, k, row => Acknowledged(row, key, message), w.afterWrite(attempt));
      var s2 := w.others(attempt, s1);
      AckLoop(s, t, k, key, message, attempt, w) ==
        if out.Changed? then (s1, t1, None)
        else if out.code != DRAFT_CONFLICT || attempt == 2 then (s1, t1, Some(out.code))
        else if !w.afterRead(attempt) then (s2, t1.(ready := false), Some(DRAFT_STORAGE_UNAVAILABLE))
        else if s2.generation != t1.generation then (s2, t1, Some(DRAFT_SCOPE_REVOKED))
        else if k !in s2.records then (s2, t1, Some(DRAFT_OUTBOX_CHANGED))
        else AckLoop(s2, t1.(records := t1.records[k := s2.records[k]]), k, key, message, attempt + 1, w)
  {
  }

  /** While nobody else writes and the page lives, a page of the present generation acknowledges exactly when the stored row shows the
      submission, however stale its own copy is. */
  lemma AckSucceedsAlone(s: Store, t: Tab, k: Key, key: OutboxKey, message: MessageId, w: Waits)
    requires (forall n :: w.afterWrite(n) && w.afterRead(n)) && forall n: nat, x: Store :: w.others(n, x) == x
    requires t.ready && t.generation == s.generation && RecordOf(t.records, k).version <= RecordOf(s.records, k).version
    ensures var (s', t', problem) := AckLoop(s, t, k, key, message, 0, w);
      var row := RecordOf(s.records, k);
      && (problem.None? <==> Acknowledged(row, key, message).Changed?)
      && s' == (if problem.None? then s.(records := s.records[k := Acknowledged(row, key, message).row.(version := row.version + 1)]) else s)
  {
    if RecordOf(t.records, k).version < RecordOf(s.records, k).version {
      assert k in s.records;
      assert Write(s, k, RecordOf(t.records, k), t.generation, row => Acknowledged(row, key, message)) == (s, Refused(DRAFT_CONFLICT));
      assert AckLoop(s, t, k, key, message, 0, w) == AckLoop(s, RereadTab(s, t, k), k, key, message, 1, w);
      assert RecordOf(RereadTab(s, t, k).records, k) == s.records[k];
    }
  }

  function Resolving(s: Store, t: Tab, k: Key, lookup: Lookup, w: Waits): (Store, Tab, Option<Code>) {
    if !t.ready then (s, t, Some(DRAFT_STORAGE_UNAVAILABLE))
    else if RecordOf(t.records, k).outbox.None? then (s, t, None)
    else
      match lookup
      case Found(message) => AckLoop(s, t, k, RecordOf(t.records, k).outbox.value.key, message, 0, w)
      case Missing => (s, Marked(t, k, DRAFT_NO_RECEIPT), None)
      case Failing => (s, t, Some(DRAFT_RESULT_UNKNOWN))
  }

  function Held(t: Tab, k: Key, out: Change): Tab { if out.Changed? then t.(active := t.active + {k}) else t }

  /** The answer is asked for first; what is still open is written again as being sent. */
  function Resubmitting(s: Store, t: Tab, k: Key, lookup: Lookup, w: Waits, alive: bool): (Store, Tab, Change) {
    if !t.ready then (s, t, Refused(DRAFT_STORAGE_UNAVAILABLE))
    else if k in t.active then (s, t, Refused(IN_PROGRESS))
    else if k in t.errors && t.errors[k] == DRAFT_CONFLICT then (s, t, Refused(DRAFT_CONFLICT))
    else
      var (s1, t1, problem) := Resolving(s, t, k, lookup, w);
      if problem.Some? then (s1, t1, Refused(problem.value))
      else if MayRetry(t1, k).Some? then (s1, t1, Refused(MayRetry(t1, k).value))
      else
        var (s2, t2, out) := Mutate(s1, t1, k, Resent, alive);
        (s2, Held(t2, k, out), out)
  }

  /** A submission is sent again only if the server had no receipt for it when it was asked, and then under its own key with its own payload. */
  lemma ResubmitsTheOriginal(s: Store, t: Tab, k: Key, lookup: Lookup, w: Waits, alive: bool)
    requires Resubmitting(s, t, k, lookup, w, alive).2.Changed?
    ensures var (s', t', out) := Resubmitting(s, t, k, lookup, w, alive);
      var row := RecordOf(s.records, k);
      && lookup == Missing && s.generation == t.generation && row.outbox.Some? == out.row.outbox.Some? && out.row == RecordOf(s'.records, k)
      && (out.row.outbox.Some? ==> out.row.outbox.value == row.outbox.value.(state := SENDING))
      && out.row.draft == row.draft && k in t'.active
  {
    hide AckLoop;
    if lookup.Found? && RecordOf(t.records, k).outbox.Some? { AckConfirms(s, t, k, RecordOf(t.records, k).outbox.value.key, lookup.message, 0, w); }
  }

  lemma {:induction false} AckConfirms(s: Store, t: Tab, k: Key, key: OutboxKey, message: MessageId, attempt: nat, w: Waits)
    requires attempt <= 2 && AckLoop(s, t, k, key, message, attempt, w).2.None?
    ensures var row := RecordOf(AckLoop(s, t, k, key, message, attempt, w).1.records, k); row.outbox.Some? && row.outbox.value.state == CONFIRMED
    decreases 3 - attempt
  {
    var (s1, t1, out) := Mutate(s, t, k, row => Acknowledged(row, key, message), w.afterWrite(attempt));
    if out.Refused? {
      var s2 := w.others(attempt, s1);
      AckConfirms(s2, RereadTab(s2, t1, k), k, key, message, attempt + 1, w);
    }
  }

  function Undelivering(s: Store, t: Tab, k: Key, key: OutboxKey, rejected: bool, alive: bool): (Store, Tab) {
    var (s', t', _) := Mutate(s, t, k, row => Undelivered(row, key, rejected), alive);
    (s', Marked(t', k, if rejected then DRAFT_SUBMISSION_REJECTED else DRAFT_RESULT_UNKNOWN))
  }

  /** An answer is acknowledged; whatever goes wrong on the way leaves the result unknown, unless the server refused. */
  function Delivering(s: Store, t: Tab, k: Key, key: OutboxKey, reply: Reply, w: Waits, alive: bool): (Store, Tab) {
    if reply.Replied? && AckLoop(s, t, k, key, reply.message, 0, w).2.None? then
      var (s1, t1, _) := AckLoop(s, t, k, key, reply.message, 0, w);
      (s1, t1.(active := t1.active - {k}))
    else
      var (s1, t1) := if reply.Replied? then (AckLoop(s, t, k, key, reply.message, 0, w).0, AckLoop(s, t, k, key, reply.message, 0, w).1) else (s, t);
      var (s2, t2) := Undelivering(s1, t1, k, key, reply.Declined?, alive);
      (s2, t2.(active := t2.active - {k}))
  }

  class Controller {
    const store: Shelf
    var ready: bool
    var generation: nat
    var records: map<Key, Record>
    var local: map<Key, Typed>
    var queue: seq<Queued>
    var sequence: nat
    var active: set<Key>
    var errors: map<Key, Code>

    function Page(): Tab
      reads this
    {
      Tab(ready, generation, records, local, queue, sequence, active, errors)
    }

    constructor (store: Shelf)
      ensures this.store == store && Page() == NewTab(store.Now())
    {
      this.store := store;
      ready, generation, records, local, queue, sequence, active, errors := true, store.generation, store.records, map[], [], 0, {}, map[];
    }

    method MutateRow(k: Key, edit: Record -> Change, alive: bool) returns (out: Change)
      modifies this, store
      ensures (store.Now(), Page(), out) == Mutate(old(store.Now()), old(Page()), k, edit, alive)
    {
      if !ready { return Refused(DRAFT_STORAGE_UNAVAILABLE); }
      out := store.Update(k, RecordOf(records, k), generation, edit);
      if out.Refused? { return; }
      if !alive {
        ready := false;
        return Refused(DRAFT_STORAGE_UNAVAILABLE);
      }
      records := records[k := out.row];
      errors := errors - {k};
    }

    method TypeDraft(k: Key, draft: Draft)
      modifies this
      ensures Page() == if old(ready) then TypedIn(old(Page()), k, draft) else old(Page())
    {
      if !ready { return; }
      sequence := sequence + 1;
      var typed := Typed(draft, sequence);
      local := local[k := typed];
      queue := queue + [Queued(k, typed)];
    }

    /** The first waiting write; the typed draft is forgotten only if nothing newer was typed. */
    method PersistDraft(alive: bool) returns (out: Change)
      requires queue != []
      modifies this, store
      ensures var first := old(queue[0]);
        var (s, t, c) := Mutate(old(store.Now()), old(Page()), first.key, row => Edited(row, first.typed.draft), alive);
        store.Now() == s && out == c && Page() == Persisted(t, first.key, first.typed, c)
    {
      var first := queue[0];
      var k := first.key;
      out := MutateRow(k, row => Edited(row, first.typed.draft), alive);
      if out.Refused? { errors := errors[k := out.code]; }
      else if k in local && local[k].sequence == first.typed.sequence { local := local - {k}; }
      queue := queue[1..];
    }

    /** The first half of a submission: a new outbox key for the stored draft. Only a changed row may be posted. */
    method Submit(k: Key, replyTo: Option<MessageId>, key: OutboxKey, alive: bool) returns (out: Change)
      modifies this, store
      ensures old(MaySend(Page(), k)).Some? ==> out == Refused(old(MaySend(Page(), k)).value) && store.Now() == old(store.Now()) && Page() == old(Page())
      ensures old(MaySend(Page(), k)).None? ==>
        var (s, t, c) := Mutate(old(store.Now()), old(Page()), k, row => Submitted(row, replyTo, key), alive);
        store.Now() == s && out == c && Page() == Held(t, k, c)
      ensures out.Changed? ==> out.row.outbox.Some? && out.row.outbox.value.key == key
    {
      var refusal := MaySend(Page(), k);
      if refusal.Some? { return Refused(refusal.value); }
      out := Hold(k, row => Submitted(row, replyTo, key), alive);
    }

    /** The row is in progress from before the write until its delivery is over, or until the write has failed. */
    method Hold(k: Key, edit: Record -> Change, alive: bool) returns (out: Change)
      requires k !in active
      modifies this, store
      ensures var (s, t, c) := Mutate(old(store.Now()), old(Page()), k, edit, alive); store.Now() == s && out == c && Page() == Held(t, k, c)
    {
      active := active + {k};
      out := MutateRow(k, edit, alive);
      if out.Refused? {
        active := active - {k};
        assert active == old(active);
      }
    }

    /** The second half: the request has ended. */
    method Deliver(k: Key, key: OutboxKey, reply: Reply, w: Waits, alive: bool)
      modifies this, store
      ensures (store.Now(), Page()) == Delivering(old(store.Now()), old(Page()), k, key, reply, w, alive)
    {
      hide AckLoop;
      if reply.Replied? {
        var problem := Acknowledge(k, key, reply.message, w);
        if problem.None? {
          active := active - {k};
          return;
        }
      }
      Undeliver(k, key, reply.Declined?, alive);
      active := active - {k};
    }

    method Undeliver(k: Key, key: OutboxKey, rejected: bool, alive: bool)
      modifies this, store
      ensures (store.Now(), Page()) == Undelivering(old(store.Now()), old(Page()), k, key, rejected, alive)
    {
      var _ := MutateRow(k, row => Undelivered(row, key, rejected), alive);
      errors := errors[k := if rejected then DRAFT_SUBMISSION_REJECTED else DRAFT_RESULT_UNKNOWN];
    }

    /** Asks for the receipt of the submission in doubt. */
    method Resolve(k: Key, lookup: Lookup, w: Waits) returns (problem: Option<Code>)
      modifies this, store
      ensures (store.Now(), Page(), problem) == Resolving(old(store.Now()), old(Page()), k, lookup, w)
    {
      hide AckLoop;
      if !ready { return Some(DRAFT_STORAGE_UNAVAILABLE); }
      var outbox := RecordOf(records, k).outbox;
      if outbox.None? { return None; }
      match lookup {
        case Found(message) =>
          problem := Acknowledge(k, outbox.value.key, message, w);
        case Missing =>
          errors := errors[k := DRAFT_NO_RECEIPT];
          problem := None;
        case Failing =>
          problem := Some(DRAFT_RESULT_UNKNOWN);
      }
    }

    method Resubmit(k: Key, lookup: Lookup, w: Waits, alive: bool) returns (out: Change)
      modifies this, store
      ensures (store.Now(), Page(), out) == Resubmitting(old(store.Now()), old(Page()), k, lookup, w, alive)
    {
      hide Resolving;
      if !ready { return Refused(DRAFT_STORAGE_UNAVAILABLE); }
      if k in active { return Refused(IN_PROGRESS); }
      if k in errors && errors[k] == DRAFT_CONFLICT { return Refused(DRAFT_CONFLICT); }
      var problem := Resolve(k, lookup, w);
      if problem.Some? { return Refused(problem.value); }
      var refusal := MayRetry(Page(), k);
      if refusal.Some? { return Refused(refusal.value); }
      out := Hold(k, Resent, alive);
    }

    /** Up to three attempts; while the page waits, other pages may write. */
    method Acknowledge(k: Key, key: OutboxKey, message: MessageId, w: Waits) returns (problem: Option<Code>)
      modifies this, store
      ensures (store.Now(), Page(), problem) == AckLoop(old(store.Now()), old(Page()), k, key, message, 0, w)
    {
      hide AckLoop, Mutate, Acknowledged;
      var attempt := 0;
      while attempt < 3
        invariant attempt <= 2 && AckLoop(store.Now(), Page(), k, key, message, attempt, w) == AckLoop(old(store.Now()), old(Page()), k, key, message, 0, w)
        decreases 3 - attempt
      {
        AckOnce(store.Now(), Page(), k, key, message, attempt, w);
        var out := MutateRow(k, row => Acknowledged(row, key, message), w.afterWrite(attempt));
        if out.Changed? { return None; }
        if out.code != DRAFT_CONFLICT || attempt == 2 { return Some(out.code); }
        store.Meanwhile(x => w.others(attempt, x));
        if !w.afterRead(attempt) {
          ready := false;
          return Some(DRAFT_STORAGE_UNAVAILABLE);
        }
        if store.generation != generation { return Some(DRAFT_SCOPE_REVOKED); }
        if k !in store.records { return Some(DRAFT_OUTBOX_CHANGED); }
        records := records[k := store.records[k]];
        attempt := attempt + 1;
      }
      assert false;
      problem := None;
    }
  }

  datatype Answer = Answer(message: MessageId) | IDEMPOTENCY_CONFLICT | REJECTED_BY_SERVER

  /** The command receipts of the server: a key is applied once, and a repetition gets the first result. */
  class Receipts {
    var receipts: map<OutboxKey, Receipt>
    var published: seq<Post>

    constructor ()
      ensures receipts == map[] && published == []
    {
      receipts, published := map[], [];
    }

    /** `fresh` is the id of the message that a first application creates; `accepted` false stands for a rolled-back command. */
    method Apply(post: Post, freshId: MessageId, accepted: bool) returns (answer: Answer)
      modifies this
      ensures post.key in old(receipts) ==> receipts == old(receipts) && published == old(published)
      ensures post.key in old(receipts) ==>
        answer == (if old(receipts)[post.key].payload == post.payload then Answer(old(receipts)[post.key].message) else IDEMPOTENCY_CONFLICT)
      ensures post.key !in old(receipts) && accepted ==>
        receipts == old(receipts)[post.key := Receipt(post.payload, freshId)] && published == old(published) + [post] && answer == Answer(freshId)
      ensures post.key !in old(receipts) && !accepted ==> receipts == old(receipts) && published == old(published) && answer == REJECTED_BY_SERVER
    {
      if post.key in receipts {
        return if receipts[post.key].payload == post.payload then Answer(receipts[post.key].message) else IDEMPOTENCY_CONFLICT;
      }
      if !accepted { return REJECTED_BY_SERVER; }
      receipts := receipts[post.key := Receipt(post.payload, freshId)];
      published := published + [post];
      answer := Answer(freshId);
    }
  }
}
