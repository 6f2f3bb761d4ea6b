/** Exactly-once delivery to one owner over every interleaving, the end of draining, and the share of memory runs. */
module InputDelivery {
  import opened Wrappers
  import opened InputWindows
  import opened InputProofs

  /** The store, the owner's cursors, and the windows accepted so far for each purpose. */
  datatype System = System(store: Store, cursor: Cursor, observed: seq<Window>, remembered: seq<Window>)

  /** Messages appear and change, sources appear, change and are withdrawn, requests are cut and come back, in any order.
      Runs that are cancelled or lost leave no event. */
  datatype Event =
    | MessageNotice(id: nat, message: MessageId, revision: nat)
    | SourceNotice(id: nat, source: SourceId, access: Access)
    | Cut(kind: RunKind)
    | Accept(kind: RunKind, request: Request)

  function LastId(log: seq<Notice>): nat { if log == [] then 0 else log[|log| - 1].id }

  function Next(x: System, o: Owner, e: Event): System {
    match e
    case MessageNotice(id, m, revision) =>
      if id <= LastId(x.store.log) then x
      else x.(store := Store(x.store.log + [Notice(id, OfMessage, m, revision)], x.store.messages[m := revision], x.store.sources))
    case SourceNotice(id, s, access) =>
      if id <= LastId(x.store.log) then x
      else
        var versions := (if s in x.store.sources then x.store.sources[s] else []) + [access];
        x.(store := Store(x.store.log + [Notice(id, OfSource, s, |versions|)], x.store.messages, x.store.sources[s := versions]))
    case Cut(kind) => x.(cursor := Frozen(x.store, o, x.cursor, kind))
    case Accept(kind, r) =>
      if Validate(x.store, o, x.cursor, kind, r).Fail? then x
      else
        var cursor := Accepted(x.store, o, x.cursor, kind, r.window);
        if kind == Memory then x.(cursor := cursor, remembered := x.remembered + [r.window]) else x.(cursor := cursor, observed := x.observed + [r.window])
  }

  // ---------------------------------------------------------------- what was delivered

  function MessagesIn(log: seq<Notice>, from: nat, to: nat): seq<Notice> {
    if log == [] then []
    else
      var last := log[|log| - 1];
      MessagesIn(log[..|log| - 1], from, to) + (if last.kind == OfMessage && from < last.id <= to then [last] else [])
  }

  function Announced(entries: seq<Entry>): seq<Notice> {
    if entries == [] then []
    else
      var e := entries[|entries| - 1];
      Announced(entries[..|entries| - 1]) + (if e.kind == OfMessage then [Notice(e.inputId, OfMessage, e.entity, e.eventVersion)] else [])
  }

  function Delivered(windows: seq<Window>): seq<Notice> {
    if windows == [] then [] else Delivered(windows[..|windows| - 1]) + Announced(windows[|windows| - 1].entries)
  }

  /** Everything delivered for each purpose is exactly the message notices up to its cursor. */
  ghost predicate InStep(x: System) {
    && StoreOk(x.store)
    && x.cursor.observed <= LastId(x.store.log) && x.cursor.memory <= LastId(x.store.log)
    && Delivered(x.observed) == MessagesIn(x.store.log, 0, x.cursor.observed)
    && Delivered(x.remembered) == MessagesIn(x.store.log, 0, x.cursor.memory)
  }

  lemma LastNotice(log: seq<Notice>, from: nat, to: nat)
    requires log != []
    ensures var last := log[|log| - 1];
      MessagesIn(log, from, to) == MessagesIn(log[..|log| - 1], from, to) + if last.kind == OfMessage && from < last.id <= to then [last] else []
  {
  }

  lemma LogBefore(log: seq<Notice>)
    requires LogOk(log) && log != []
    ensures LogOk(log[..|log| - 1]) && forall n :: n in log[..|log| - 1] ==> n.id < log[|log| - 1].id
  {
  }

  lemma {:induction false} MessagesSplit(log: seq<Notice>, from: nat, mid: nat, to: nat)
    requires LogOk(log) && from <= mid <= to
    ensures MessagesIn(log, from, to) == MessagesIn(log, from, mid) + MessagesIn(log, mid, to)
  {
    hide LogOk;
    if log != [] {
      hide MessagesIn;
      var rest := log[..|log| - 1];
      LogBefore(log);
      LastNotice(log, from, to);
      LastNotice(log, from, mid);
      LastNotice(log, mid, to);
      MessagesSplit(rest, from, mid, to);
      if log[|log| - 1].id <= mid { NoMessagesBehind(rest, log[|log| - 1].id, mid, to); }
    }
  }

  lemma {:induction false} NoMessagesBehind(log: seq<Notice>, bound: nat, from: nat, to: nat)
    requires (forall n :: n in log ==> n.id < bound) && bound <= from
    ensures MessagesIn(log, from, to) == []
  {
    if log != [] { NoMessagesBehind(log[..|log| - 1], bound, from, to); }
  }

  lemma LaterNotice(log: seq<Notice>, n: Notice, to: nat)
    requires to <= LastId(log) < n.id
    ensures MessagesIn(log + [n], 0, to) == MessagesIn(log, 0, to)
  {
    assert (log + [n])[..|log|] == log;
  }

  /** Messages are visible to every owner, so the visible rows of a window hold all of its messages. */
  lemma {:induction false} CoveredMessages(s: Store, o: Owner, log: seq<Notice>, from: nat, to: nat, entries: seq<Entry>)
    requires Covers(Between(s, o, log, from, to), entries)
    ensures Announced(entries) == MessagesIn(log, from, to)
    decreases |log|
  {
    if log != [] {
      var k := |log| - 1;
      var rows := Between(s, o, log[..k], from, to);
      if InWindow(s, o, from, to, log[k]) {
        var n := |entries| - 1;
        assert Between(s, o, log, from, to) == rows + [log[k]];
        forall i | 0 <= i < n ensures Matches(rows[i], entries[..n][i]) { assert Matches((rows + [log[k]])[i], entries[i]); }
        assert Matches((rows + [log[k]])[n], entries[n]);
        CoveredMessages(s, o, log[..k], from, to, entries[..n]);
      } else {
        CoveredMessages(s, o, log[..k], from, to, entries);
      }
    }
  }

  lemma AcceptedWindow(s: Store, o: Owner, c: Cursor, kind: RunKind, r: Request)
    requires StoreOk(s) && c.observed <= LastId(s.log) && c.memory <= LastId(s.log) && Validate(s, o, c, kind, r).Pass?
    ensures From(c, kind) == r.window.from <= r.window.through <= LastId(s.log)
    ensures Announced(r.window.entries) == MessagesIn(s.log, r.window.from, r.window.through)
  {
    hide StaleEntry, StaleSource, Between;
    CoveredMessages(s, o, s.log, r.window.from, r.window.through, r.window.entries);
    HighestInLog(s, o, s.log);
  }

  lemma {:induction false} HighestInLog(s: Store, o: Owner, log: seq<Notice>)
    requires LogOk(log)
    ensures Highest(s, o, log) <= LastId(log)
  {
    HighestIs(s, o, log);
    if Highest(s, o, log) != 0 {
      var n :| n in log && Visible(s, o, n) && n.id == Highest(s, o, log);
      var i :| 0 <= i < |log| && log[i] == n;
    }
  }

  lemma AcceptKeepsStep(x: System, o: Owner, kind: RunKind, r: Request)
    requires InStep(x)
    ensures InStep(Next(x, o, Accept(kind, r)))
    ensures x.cursor.observed <= Next(x, o, Accept(kind, r)).cursor.observed && x.cursor.memory <= Next(x, o, Accept(kind, r)).cursor.memory
  {
    hide Validate, StoreOk, High;
    if Validate(x.store, o, x.cursor, kind, r).Pass? {
      AcceptedWindow(x.store, o, x.cursor, kind, r);
      StoreHasLog(x.store);
      MessagesSplit(x.store.log, 0, r.window.from, r.window.through);
      assert (x.observed + [r.window])[..|x.observed|] == x.observed;
      assert (x.remembered + [r.window])[..|x.remembered|] == x.remembered;
    }
  }

  lemma NoticeKeepsStep(x: System, o: Owner, e: Event)
    requires InStep(x) && (e.MessageNotice? || e.SourceNotice?)
    ensures InStep(Next(x, o, e))
  {
    hide StoreOk, MessagesIn, Delivered;
    var x' := Next(x, o, e);
    if x' != x {
      var n := x'.store.log[|x.store.log|];
      LaterNotice(x.store.log, n, x.cursor.observed);
      LaterNotice(x.store.log, n, x.cursor.memory);
      LongerStore(x.store, x'.store, n);
    }
  }

  lemma LongerStore(s: Store, s': Store, n: Notice)
    requires StoreOk(s) && s'.log == s.log + [n] && n.id > LastId(s.log) && CurrentVersion(s', n.kind, n.entity).Some?
    requires s.messages.Keys <= s'.messages.Keys && s.sources.Keys <= s'.sources.Keys
    ensures StoreOk(s')
  {
    forall i | 0 <= i < |s'.log| ensures CurrentVersion(s', s'.log[i].kind, s'.log[i].entity).Some? {
      if i < |s.log| { assert CurrentVersion(s, s.log[i].kind, s.log[i].entity).Some?; }
    }
  }

  lemma NextKeepsStep(x: System, o: Owner, e: Event)
    requires InStep(x)
    ensures InStep(Next(x, o, e))
    ensures x.cursor.observed <= Next(x, o, e).cursor.observed && x.cursor.memory <= Next(x, o, e).cursor.memory
  {
    hide InStep, Validate, High, Target;
    match e
    case MessageNotice(_, _, _) => NoticeKeepsStep(x, o, e);
    case SourceNotice(_, _, _) => NoticeKeepsStep(x, o, e);
    case Cut(kind) => CutKeepsStep(x, o, kind);
    case Accept(kind, r) => AcceptKeepsStep(x, o, kind, r);
  }

  lemma CutKeepsStep(x: System, o: Owner, kind: RunKind)
    requires InStep(x)
    ensures InStep(Next(x, o, Cut(kind)))
  {
    hide High, Target, StoreOk;
  }

  function Run(x: System, o: Owner, events: seq<Event>): System
    decreases |events|
  {
    if events == [] then x else Run(Next(x, o, events[0]), o, events[1..])
  }

  const Fresh: System := System(Store([], map[], map[]), Cursor(0, 0, 0, 0), [], [])

  lemma {:induction false} RunKeepsStep(x: System, o: Owner, events: seq<Event>)
    requires InStep(x)
    ensures InStep(Run(x, o, events))
    ensures x.cursor.observed <= Run(x, o, events).cursor.observed && x.cursor.memory <= Run(x, o, events).cursor.memory
    decreases |events|
  {
    hide InStep, Next;
    if events != [] {
      NextKeepsStep(x, o, events[0]);
      RunKeepsStep(Next(x, o, events[0]), o, events[1..]);
    }
  }

  lemma FreshIsInStep()
    ensures InStep(Fresh)
  {
  }

  lemma {:induction false} RunContinues(x: System, o: Owner, before: seq<Event>, after: seq<Event>)
    ensures Run(x, o, before + after) == Run(Run(x, o, before), o, after)
    decreases |before|
  {
    hide Next;
    if before == [] {
      assert before + after == after;
    } else {
      assert (before + after)[1..] == before[1..] + after;
      RunContinues(Next(x, o, before[0]), o, before[1..], after);
    }
  }

  /** In every reachable state and for each purpose the message entries of the accepted windows, one window after the other, are the
      session's message notices up to the cursor: no gap, no repetition, no other order. No cursor ever moves back. */
  lemma ExactlyOnce(o: Owner, events: seq<Event>, later: seq<Event>)
    ensures InStep(Run(Fresh, o, events))
    ensures var x, x' := Run(Fresh, o, events), Run(Fresh, o, events + later); x.cursor.observed <= x'.cursor.observed && x.cursor.memory <= x'.cursor.memory
  {
    hide InStep, Run;
    FreshIsInStep();
    RunKeepsStep(Fresh, o, events);
    RunKeepsStep(Run(Fresh, o, events), o, later);
    RunContinues(Fresh, o, events, later);
  }

  // ---------------------------------------------------------------- draining

  /** What one request brings with it: how many rows may be read, what fits into it, and what is offered beside the window. */
  datatype Means = Means(limit: nat, fits: (Draft, bool) -> bool, offer: Offer)

  ghost predicate Usable(s: Store, o: Owner, m: Means) { m.limit > 0 && forall x :: x in m.offer.sources ==> Readable(s, o, x) }

  /** Rounds of one purpose without new notices: each request, under means of its own, that is cut is also accepted. */
  ghost predicate Drains(s: Store, o: Owner, kind: RunKind, means: seq<Means>, cursors: seq<Cursor>) {
    && StoreOk(s) && |cursors| == |means| + 1 && (forall m :: m in means ==> Usable(s, o, m))
    && forall i :: 0 <= i < |means| ==> Round(s, o, kind, means[i].limit, means[i].fits, means[i].offer, cursors[i], cursors[i + 1])
  }

  ghost predicate Round(s: Store, o: Owner, kind: RunKind, limit: nat, fits: (Draft, bool) -> bool, offer: Offer, c: Cursor, c': Cursor) {
    && Between(s, o, s.log, From(c, kind), High(s, o, c)) != []
    && Produce(s, o, c, kind, limit, fits, offer).Ok?
    && c' == Accepted(s, o, Frozen(s, o, c, kind), kind, Produce(s, o, c, kind, limit, fits, offer).value.window)
  }

  lemma RoundAdvances(s: Store, o: Owner, kind: RunKind, limit: nat, fits: (Draft, bool) -> bool, offer: Offer, c: Cursor, c': Cursor)
    requires limit > 0 && StoreOk(s) && (forall x :: x in offer.sources ==> Readable(s, o, x)) && Round(s, o, kind, limit, fits, offer, c, c')
    ensures From(c', kind) > From(c, kind) && (From(c, kind) <= LastId(s.log) ==> From(c', kind) <= LastId(s.log) || From(c', kind) <= High(s, o, c))
  {
    hide Produce, High, Target, Validate, StoreOk;
    ProducerMeetsChecker(s, o, c, kind, limit, fits, offer);
    var w := Produce(s, o, c, kind, limit, fits, offer).value.window;
    assert From(c', kind) == w.through;
    WindowInReach(s, o, c, kind, limit, fits, offer);
  }

  lemma WindowInReach(s: Store, o: Owner, c: Cursor, kind: RunKind, limit: nat, fits: (Draft, bool) -> bool, offer: Offer)
    requires limit > 0 && StoreOk(s) && (forall x :: x in offer.sources ==> Readable(s, o, x)) && Produce(s, o, c, kind, limit, fits, offer).Ok?
    ensures Produce(s, o, c, kind, limit, fits, offer).value.window.through <= Max(From(c, kind), High(s, o, c))
  {
    hide Produce, StaleEntry, StaleSource, Covers, Highest, StoreOk;
    ProducerMeetsChecker(s, o, c, kind, limit, fits, offer);
    assert High(s, o, Frozen(s, o, c, kind)) == High(s, o, c);
  }

  /** Draining ends: while nothing new arrives, every round moves the cursor, whatever its means, and it never passes the high-water mark,
      so there are at most as many rounds as the mark was ahead. */
  lemma {:induction false} DrainEnds(s: Store, o: Owner, kind: RunKind, means: seq<Means>, cursors: seq<Cursor>)
    requires Drains(s, o, kind, means, cursors)
    ensures |means| <= High(s, o, cursors[0]) - From(cursors[0], kind)
    decreases |means|
  {
    hide Round, StoreOk, Highest;
    if means != [] {
      var m := means[0];
      assert m in means;
      assert Round(s, o, kind, m.limit, m.fits, m.offer, cursors[0], cursors[1]);
      RoundAdvances(s, o, kind, m.limit, m.fits, m.offer, cursors[0], cursors[1]);
      HighStays(s, o, kind, m.limit, m.fits, m.offer, cursors[0], cursors[1]);
      forall i | 0 <= i < |means[1..]| ensures Round(s, o, kind, means[1..][i].limit, means[1..][i].fits, means[1..][i].offer, cursors[1..][i], cursors[1..][i + 1]) {
        assert Round(s, o, kind, means[i + 1].limit, means[i + 1].fits, means[i + 1].offer, cursors[i + 1], cursors[i + 2]);
      }
      DrainEnds(s, o, kind, means[1..], cursors[1..]);
    }
  }

  lemma HighStays(s: Store, o: Owner, kind: RunKind, limit: nat, fits: (Draft, bool) -> bool, offer: Offer, c: Cursor, c': Cursor)
    requires limit > 0 && StoreOk(s) && (forall x :: x in offer.sources ==> Readable(s, o, x)) && Round(s, o, kind, limit, fits, offer, c, c')
    ensures High(s, o, c') <= High(s, o, c)
  {
    hide Produce, StoreOk, Highest, Between, Target;
    WindowInReach(s, o, c, kind, limit, fits, offer);
  }

  // ---------------------------------------------------------------- the share of memory runs

  /** A memory job is due when a started one is unfinished, when enough has gathered, or when a small rest has aged. */
  predicate MemoryDue(s: Store, o: Owner, c: Cursor, memoryEvery: nat, aged: bool) {
    var backlog := |Between(s, o, s.log, c.memory, LastId(s.log))|;
    (c.target > c.memory && backlog > 0) || backlog >= memoryEvery || (backlog > 0 && aged)
  }

  predicate MemoryTurn(s: Store, o: Owner, c: Cursor, memoryEvery: nat, aged: bool, share: nat) {
    MemoryDue(s, o, c, memoryEvery, aged) && c.foregroundRuns >= share
  }

  /** One completed run: the store and cursor at its claim, the kind that was chosen, and the store and window of its acceptance. */
  datatype Finished = Finished(atClaim: Store, cursor: Cursor, aged: bool, kind: RunKind, atEnd: Store, window: Window)

  /** Consecutive completed runs of one owner; a claim whose turn it is takes the memory run. */
  ghost predicate Consecutive(o: Owner, runs: seq<Finished>, memoryEvery: nat, share: nat) {
    && (forall i :: 0 <= i < |runs| && MemoryTurn(runs[i].atClaim, o, runs[i].cursor, memoryEvery, runs[i].aged, share) ==> runs[i].kind == Memory)
    && forall i :: 0 < i < |runs| ==>
      runs[i].cursor.foregroundRuns == Accepted(runs[i - 1].atEnd, o, runs[i - 1].cursor, runs[i - 1].kind, runs[i - 1].window).foregroundRuns
  }

  /** While memory stays due, one of any memoryShareEvery + 1 consecutive completed runs is a memory run. */
  lemma {:induction false} MemoryGetsItsShare(o: Owner, runs: seq<Finished>, memoryEvery: nat, share: nat)
    requires Consecutive(o, runs, memoryEvery, share) && |runs| == share + 1
    requires forall i :: 0 <= i < |runs| ==> MemoryDue(runs[i].atClaim, o, runs[i].cursor, memoryEvery, runs[i].aged)
    ensures exists i :: 0 <= i < |runs| && runs[i].kind == Memory
  {
    hide MemoryDue;
    if forall i :: 0 <= i < share ==> runs[i].kind != Memory {
      CountsUp(o, runs, memoryEvery, share, share);
      assert MemoryTurn(runs[share].atClaim, o, runs[share].cursor, memoryEvery, runs[share].aged, share);
    }
  }

  lemma {:induction false} CountsUp(o: Owner, runs: seq<Finished>, memoryEvery: nat, share: nat, n: nat)
    requires Consecutive(o, runs, memoryEvery, share) && n < |runs| && forall i :: 0 <= i < n ==> runs[i].kind != Memory
    ensures runs[n].cursor.foregroundRuns >= n
  {
    hide MemoryTurn, High;
    if n > 0 { CountsUp(o, runs, memoryEvery, share, n - 1); }
  }
}
