/** Fenced pages over a growing and changing list of messages. */
module Pages {
  import opened Wrappers

  type MessageId = nat

  /** sequence and root are fixed when the row is inserted; revision, deleted and text change. */
  datatype Message = Message(id: MessageId, session: nat, sequence: nat, root: MessageId, revision: nat, deleted: bool, text: nat)

  /** high is the fence that the first page drew; position is where the next page begins. */
  datatype Cursor = Cursor(high: nat, position: nat)

  datatype Page = Page(items: seq<Message>, highWater: nat, next: Option<Cursor>)

  datatype Result = Ok(page: Page) | PAGE_RESYNC_REQUIRED

  /** Rows in insertion order. */
  predicate RowsOk(rows: seq<Message>) {
    && (forall i :: 0 <= i < |rows| ==> 0 < rows[i].sequence)
    && forall i, j :: 0 <= i < j < |rows| ==> rows[i].sequence < rows[j].sequence && rows[i].id != rows[j].id
  }

  function High(rows: seq<Message>): nat { if rows == [] then 0 else rows[|rows| - 1].sequence }

  function Where(rows: seq<Message>, keep: Message -> bool): seq<Message> {
    if rows == [] then []
    else Where(rows[..|rows| - 1], keep) + (if keep(rows[|rows| - 1]) then [rows[|rows| - 1]] else [])
  }

  function First(rows: seq<Message>, n: nat): seq<Message> { if |rows| <= n then rows else rows[..n] }

  function Last(rows: seq<Message>, n: nat): seq<Message> { if |rows| <= n then rows else rows[|rows| - n..] }

  predicate Valid(c: Cursor, high: nat) { c.high <= high && c.position <= c.high + 1 }

  function Older(c: Cursor): Message -> bool { (m: Message) => m.sequence <= c.high && m.sequence < c.position }

  /** The newest messages before the position, in ascending order. */
  function History(rows: seq<Message>, cursor: Option<Cursor>, limit: nat): Result
    requires limit > 0
  {
    var c := cursor.GetOr(Cursor(High(rows), High(rows) + 1));
    if !Valid(c, High(rows)) then PAGE_RESYNC_REQUIRED
    else
      var found := Where(rows, Older(c));
      var items := Last(found, limit);
      Ok(Page(items, c.high, if |found| > limit then Some(Cursor(c.high, items[0].sequence)) else None))
  }

  function Newer(c: Cursor, root: MessageId): Message -> bool { (m: Message) => m.root == root && m.sequence <= c.high && m.sequence > c.position }

  /** The oldest messages of a thread after the position. */
  function Thread(rows: seq<Message>, root: MessageId, cursor: Option<Cursor>, limit: nat): Result
    requires limit > 0
  {
    var c := cursor.GetOr(Cursor(High(rows), 0));
    if !Valid(c, High(rows)) then PAGE_RESYNC_REQUIRED
    else
      var found := Where(rows, Newer(c, root));
      var items := First(found, limit);
      Ok(Page(items, c.high, if |found| > limit then Some(Cursor(c.high, items[|items| - 1].sequence)) else None))
  }

  // ---------------------------------------------------------------- change between two pages

  predicate Same(m: Message, m': Message) { m'.id == m.id && m'.session == m.session && m'.sequence == m.sequence && m'.root == m.root && m'.revision >= m.revision }

  /** Messages were appended and rows were edited or deleted in place. */
  predicate Evolves(rows: seq<Message>, rows': seq<Message>) {
    && |rows| <= |rows'| && RowsOk(rows') && forall i :: 0 <= i < |rows| ==> Same(rows[i], rows'[i])
  }

  /** What identifies the rows of a list. */
  function Ids(rows: seq<Message>): seq<MessageId> { seq(|rows|, i requires 0 <= i < |rows| => rows[i].id) }

  /** The filter looks at nothing that changes and lets nothing beyond the fence pass. */
  ghost predicate Stable(keep: Message -> bool, high: nat) {
    (forall m, m' :: Same(m, m') ==> keep(m) == keep(m')) && forall m :: keep(m) ==> m.sequence <= high
  }

  lemma {:induction false} WhereIs(rows: seq<Message>, keep: Message -> bool)
    requires RowsOk(rows)
    ensures RowsOk(Where(rows, keep)) && |Where(rows, keep)| <= |rows|
    ensures forall m :: m in Where(rows, keep) <==> m in rows && keep(m)
  {
    if rows != [] {
      var k := |rows| - 1;
      WhereIs(rows[..k], keep);
      var before := Where(rows[..k], keep);
      assert rows == rows[..k] + [rows[k]];
      forall m | m in before ensures m.sequence < rows[k].sequence && m.id != rows[k].id { assert m in rows[..k]; }
    }
  }

  lemma {:induction false} NothingNew(rows: seq<Message>, rows': seq<Message>, keep: Message -> bool, high: nat)
    requires RowsOk(rows') && |rows| <= |rows'| && rows == rows'[..|rows|] && Stable(keep, high) && high <= High(rows)
    ensures Where(rows', keep) == Where(rows, keep)
    decreases |rows'|
  {
    if |rows| < |rows'| {
      var k := |rows'| - 1;
      if rows != [] { assert rows'[|rows| - 1].sequence < rows'[k].sequence; }
      assert rows'[..k][..|rows|] == rows;
      NothingNew(rows, rows'[..k], keep, high);
    } else {
      assert rows == rows';
    }
  }

  lemma {:induction false} EditsDoNotMatter(rows: seq<Message>, rows': seq<Message>, keep: Message -> bool, high: nat)
    requires |rows| == |rows'| && Stable(keep, high) && forall i :: 0 <= i < |rows| ==> Same(rows[i], rows'[i])
    ensures |Where(rows', keep)| == |Where(rows, keep)| && forall i :: 0 <= i < |Where(rows, keep)| ==> Same(Where(rows, keep)[i], Where(rows', keep)[i])
  {
    if rows != [] {
      var k := |rows| - 1;
      EditsDoNotMatter(rows[..k], rows'[..k], keep, high);
      assert Same(rows[k], rows'[k]);
    }
  }

  /** Below the fence the same messages are found, in the same order, whatever happened since. */
  lemma FoundAgain(rows: seq<Message>, rows': seq<Message>, keep: Message -> bool, high: nat)
    requires RowsOk(rows) && Evolves(rows, rows') && Stable(keep, high) && high <= High(rows)
    ensures |Where(rows', keep)| == |Where(rows, keep)| && forall i :: 0 <= i < |Where(rows, keep)| ==> Same(Where(rows, keep)[i], Where(rows', keep)[i])
    ensures Ids(Where(rows', keep)) == Ids(Where(rows, keep))
  {
    var part := rows'[..|rows|];
    EditsDoNotMatter(rows, part, keep, high);
    if rows != [] { assert Same(rows[|rows| - 1], rows'[|rows| - 1]); }
    NothingNew(part, rows', keep, high);
  }

  lemma HighGrows(rows: seq<Message>, rows': seq<Message>)
    requires RowsOk(rows) && Evolves(rows, rows')
    ensures High(rows) <= High(rows')
  {
    if rows != [] { assert Same(rows[|rows| - 1], rows'[|rows| - 1]); }
  }

  // ---------------------------------------------------------------- following the cursors

  /** Successive states of the table, each the successor of the one before. */
  ghost predicate Successive(states: seq<seq<Message>>) {
    (forall i :: 0 <= i < |states| ==> RowsOk(states[i])) && forall i :: 0 < i < |states| ==> Evolves(states[i - 1], states[i])
  }

  /** The ids that a reader collects who reads page after page, each from a later state; None if the cursors lead beyond the states. */
  function Collected(states: seq<seq<Message>>, cursor: Cursor, limit: nat): Option<seq<MessageId>>
    requires limit > 0
    decreases |states|
  {
    if states == [] then None
    else
      match History(states[0], Some(cursor), limit)
      case PAGE_RESYNC_REQUIRED => None
      case Ok(page) =>
        if page.next.None? then Some(Ids(page.items))
        else
          var rest := Collected(states[1..], page.next.value, limit);
          if rest.None? then None else Some(rest.value + Ids(page.items))
  }

  lemma LastRow(rows: seq<Message>, keep: Message -> bool)
    requires rows != []
    ensures Where(rows, keep) == Where(rows[..|rows| - 1], keep) + if keep(rows[|rows| - 1]) then [rows[|rows| - 1]] else []
  {
  }

  lemma RowsBefore(rows: seq<Message>)
    requires RowsOk(rows) && rows != []
    ensures RowsOk(rows[..|rows| - 1]) && forall m :: m in rows[..|rows| - 1] ==> m.sequence < rows[|rows| - 1].sequence
  {
  }

  /** The two filters part what the first one lets pass at a sequence number. */
  ghost predicate Parts(keep: Message -> bool, lower: Message -> bool, upper: Message -> bool, mid: nat) {
    forall m: Message :: lower(m) == (keep(m) && m.sequence < mid) && upper(m) == (keep(m) && m.sequence >= mid)
  }

  /** What a filter finds is what it finds before a sequence number and then what it finds from there on. */
  lemma {:induction false} WhereSplits(rows: seq<Message>, keep: Message -> bool, lower: Message -> bool, upper: Message -> bool, mid: nat)
    requires RowsOk(rows) && Parts(keep, lower, upper, mid)
    ensures Where(rows, keep) == Where(rows, lower) + Where(rows, upper)
  {
    hide RowsOk, Where;
    if rows == [] {
      assert Where(rows, keep) == [] && Where(rows, lower) == [] && Where(rows, upper) == [] by { Nowhere(keep); Nowhere(lower); Nowhere(upper); }
    } else {
      var rest, last := rows[..|rows| - 1], rows[|rows| - 1];
      RowsBefore(rows);
      LastRow(rows, keep);
      LastRow(rows, lower);
      LastRow(rows, upper);
      WhereSplits(rest, keep, lower, upper, mid);
      assert lower(last) == (keep(last) && last.sequence < mid) && upper(last) == (keep(last) && last.sequence >= mid);
      if last.sequence < mid { NoneAbove(rest, upper, last.sequence); }
    }
  }

  lemma Nowhere(keep: Message -> bool)
    ensures Where([], keep) == []
  {
  }

  lemma {:induction false} NoneAbove(rows: seq<Message>, keep: Message -> bool, bound: nat)
    requires (forall m :: m in rows ==> m.sequence < bound) && forall m: Message :: keep(m) ==> m.sequence >= bound
    ensures Where(rows, keep) == []
  {
    if rows != [] { NoneAbove(rows[..|rows| - 1], keep, bound); }
  }

  /** A page is the tail of what the cursor still has to show, and the next cursor shows exactly the rest. */
  lemma PageSplits(rows: seq<Message>, c: Cursor, limit: nat)
    requires RowsOk(rows) && limit > 0 && History(rows, Some(c), limit).Ok?
    ensures var page := History(rows, Some(c), limit).page;
      && page.highWater == c.high
      && (page.next.None? ==> page.items == Where(rows, Older(c)))
      && (page.next.Some? ==> Valid(page.next.value, High(rows)) && page.next.value.high == c.high && page.next.value.position < c.position)
      && (page.next.Some? ==> Where(rows, Older(c)) == Where(rows, Older(page.next.value)) + page.items)
  {
    hide RowsOk, Where;
    var found := Where(rows, Older(c));
    WhereIs(rows, Older(c));
    if |found| > limit {
      var n := |found| - limit;
      var mid := found[n].sequence;
      assert found[n] in found;
      Ascending(found, n);
      WhereSplits(rows, Older(c), Older(Cursor(c.high, mid)), (m: Message) => m.sequence <= c.high && mid <= m.sequence < c.position, mid);
      var low, upper := Where(rows, Older(Cursor(c.high, mid))), Where(rows, (m: Message) => m.sequence <= c.high && mid <= m.sequence < c.position);
      WhereIs(rows, Older(Cursor(c.high, mid)));
      WhereIs(rows, (m: Message) => m.sequence <= c.high && mid <= m.sequence < c.position);
      Side(low, upper, mid, n);
      Side(low, upper, mid, n - 1);
      assert upper == found[n..];
    }
  }

  lemma Ascending(rows: seq<Message>, n: nat)
    requires RowsOk(rows) && 0 < n < |rows|
    ensures rows[n - 1].sequence < rows[n].sequence
  {
  }

  /** In a list cut at a sequence number, a row lies before the cut exactly if its number is smaller. */
  lemma Side(low: seq<Message>, upper: seq<Message>, mid: nat, i: nat)
    requires (forall m :: m in low ==> m.sequence < mid) && (forall m :: m in upper ==> m.sequence >= mid) && i < |low + upper|
    ensures (low + upper)[i].sequence < mid <==> i < |low|
  {
    if i < |low| { assert low[i] in low; } else { assert upper[i - |low|] in upper; }
  }

  lemma OlderIsStable(c: Cursor)
    ensures Stable(Older(c), c.high)
  {
  }

  lemma IdsJoin(left: seq<Message>, right: seq<Message>)
    ensures Ids(left + right) == Ids(left) + Ids(right)
  {
  }

  /** Following the cursors, each page read from a later state of the table, collects every message at or below the fence exactly once
      and in order, with the position strictly falling, however many messages were appended, edited or deleted between the pages. */
  lemma {:induction false} PagesCoverTheFence(states: seq<seq<Message>>, c: Cursor, limit: nat)
    requires states != [] && Successive(states) && limit > 0 && Valid(c, High(states[0]))
    ensures Collected(states, c, limit).Some? ==> Collected(states, c, limit).value == Ids(Where(states[0], Older(c)))
    ensures |states| > |Where(states[0], Older(c))| ==> Collected(states, c, limit).Some?
    decreases |states|
  {
    hide RowsOk, Where, Older;
    var rows := states[0];
    PageSplits(rows, c, limit);
    var page := History(rows, Some(c), limit).page;
    if page.next.Some? {
      var c' := page.next.value;
      IdsJoin(Where(rows, Older(c')), page.items);
      PageIsFull(rows, c, limit);
      if |states| > 1 {
        assert Evolves(rows, states[1]);
        HighGrows(rows, states[1]);
        OlderIsStable(c');
        FoundAgain(rows, states[1], Older(c'), c'.high);
        Later(states);
        PagesCoverTheFence(states[1..], c', limit);
      }
    }
  }

  lemma Later(states: seq<seq<Message>>)
    requires |states| > 1 && Successive(states)
    ensures Successive(states[1..]) && states[1..][0] == states[1]
  {
    forall i | 0 < i < |states[1..]| ensures Evolves(states[1..][i - 1], states[1..][i]) { assert Evolves(states[i], states[i + 1]); }
  }

  lemma PageIsFull(rows: seq<Message>, c: Cursor, limit: nat)
    requires limit > 0 && History(rows, Some(c), limit).Ok? && History(rows, Some(c), limit).page.next.Some?
    ensures |History(rows, Some(c), limit).page.items| > 0
  {
  }

  // ---------------------------------------------------------------- threads

  function Upto(c: Cursor, root: MessageId, mid: nat): Message -> bool { (m: Message) => m.root == root && m.sequence <= c.high && c.position < m.sequence <= mid }

  /** A page of a thread is the head of what the cursor still has to show, and the next cursor shows exactly the rest. */
  lemma ThreadPageSplits(rows: seq<Message>, root: MessageId, c: Cursor, limit: nat)
    requires RowsOk(rows) && limit > 0 && Thread(rows, root, Some(c), limit).Ok?
    ensures var page := Thread(rows, root, Some(c), limit).page;
      && page.highWater == c.high
      && (page.next.None? ==> page.items == Where(rows, Newer(c, root)))
      && (page.next.Some? ==> Valid(page.next.value, High(rows)) && page.next.value.high == c.high && page.next.value.position > c.position && page.items != [])
      && (page.next.Some? ==> Where(rows, Newer(c, root)) == page.items + Where(rows, Newer(page.next.value, root)))
  {
    hide RowsOk, Where;
    var found := Where(rows, Newer(c, root));
    WhereIs(rows, Newer(c, root));
    if |found| > limit {
      var mid := found[limit - 1].sequence;
      assert found[limit - 1] in found;
      BelowHigh(rows, found[limit - 1]);
      ThreadParts(rows, root, c, mid);
      HeadIs(found, Where(rows, Upto(c, root, mid)), Where(rows, Newer(Cursor(c.high, mid), root)), limit);
    }
  }

  lemma BelowHigh(rows: seq<Message>, m: Message)
    requires RowsOk(rows) && m in rows
    ensures m.sequence <= High(rows)
  {
  }

  lemma ThreadParts(rows: seq<Message>, root: MessageId, c: Cursor, mid: nat)
    requires RowsOk(rows) && c.position <= mid
    ensures var low, high := Where(rows, Upto(c, root, mid)), Where(rows, Newer(Cursor(c.high, mid), root));
      Where(rows, Newer(c, root)) == low + high && (forall m :: m in low ==> m.sequence <= mid) && forall m :: m in high ==> m.sequence > mid
  {
    hide RowsOk, Where;
    WhereSplits(rows, Newer(c, root), Upto(c, root, mid), Newer(Cursor(c.high, mid), root), mid + 1);
    WhereIs(rows, Upto(c, root, mid));
    WhereIs(rows, Newer(Cursor(c.high, mid), root));
  }

  lemma HeadIs(found: seq<Message>, low: seq<Message>, high: seq<Message>, n: nat)
    requires RowsOk(found) && 0 < n < |found| && found == low + high
    requires (forall m :: m in low ==> m.sequence < found[n - 1].sequence + 1) && forall m :: m in high ==> m.sequence >= found[n - 1].sequence + 1
    ensures low == found[..n]
  {
    Side(low, high, found[n - 1].sequence + 1, n - 1);
    Side(low, high, found[n - 1].sequence + 1, n);
  }

  /** The ids that a reader of a thread collects, as in Collected. */
  function CollectedThread(states: seq<seq<Message>>, root: MessageId, cursor: Cursor, limit: nat): Option<seq<MessageId>>
    requires limit > 0
    decreases |states|
  {
    if states == [] then None
    else
      match Thread(states[0], root, Some(cursor), limit)
      case PAGE_RESYNC_REQUIRED => None
      case Ok(page) =>
        if page.next.None? then Some(Ids(page.items))
        else
          var rest := CollectedThread(states[1..], root, page.next.value, limit);
          if rest.None? then None else Some(Ids(page.items) + rest.value)
  }

  lemma NewerIsStable(c: Cursor, root: MessageId)
    ensures Stable(Newer(c, root), c.high)
  {
  }

  /** Following the cursors of a thread collects, in order and exactly once, every message of the thread at or below the fence, although the
      thread grows and its messages are edited and deleted between the pages. */
  lemma {:induction false} ThreadPagesCoverTheFence(states: seq<seq<Message>>, root: MessageId, c: Cursor, limit: nat)
    requires states != [] && Successive(states) && limit > 0 && Valid(c, High(states[0]))
    ensures CollectedThread(states, root, c, limit).Some? ==> CollectedThread(states, root, c, limit).value == Ids(Where(states[0], Newer(c, root)))
    ensures |states| > |Where(states[0], Newer(c, root))| ==> CollectedThread(states, root, c, limit).Some?
    decreases |states|
  {
    hide RowsOk, Where, Newer;
    var rows := states[0];
    ThreadPageSplits(rows, root, c, limit);
    var page := Thread(rows, root, Some(c), limit).page;
    if page.next.Some? {
      var c' := page.next.value;
      IdsJoin(page.items, Where(rows, Newer(c', root)));
      if |states| > 1 {
        assert Evolves(rows, states[1]);
        HighGrows(rows, states[1]);
        NewerIsStable(c', root);
        FoundAgain(rows, states[1], Newer(c', root), c'.high);
        Later(states);
        ThreadPagesCoverTheFence(states[1..], root, c', limit);
      }
    }
  }
}
