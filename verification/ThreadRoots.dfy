/** The root of a thread, three ways: stored with the message, found by walking up the replies, and computed by the recursive query. */
module ThreadRoots {
  import opened Wrappers
  import opened SessionTypes
  import opened SessionInvariant
  import opened SessionHistory

  type Id = nat

  /** What each known message replies to. */
  type Replies = map<Id, Option<Id>>

  function ParentOf(g: Replies, m: Id): Option<Id> { if m in g then g[m] else None }

  // ---------------------------------------------------------------- the walk

  /** Climbs until a message has no known parent; a message met twice means a cycle, and the answer is the message asked for. */
  function Walk(g: Replies, id: Id, current: Id, seen: set<Id>): Id
    decreases |g.Keys - seen|
  {
    if current in seen then id
    else
      var parent := ParentOf(g, current);
      if parent.None? || parent.value !in g then current
      else
        Smaller(g.Keys, seen, current);
        Walk(g, id, parent.value, seen + {current})
  }

  lemma Smaller(all: set<Id>, seen: set<Id>, x: Id)
    requires x in all && x !in seen
    ensures |all - (seen + {x})| < |all - seen|
  {
    assert all - seen == (all - (seen + {x})) + {x};
  }

  function RootByWalk(g: Replies, id: Id): Id { Walk(g, id, id, {}) }

  /** The loop of the reader. */
  method RootMessageId(g: Replies, id: Id) returns (root: Id)
    ensures root == RootByWalk(g, id)
  {
    var seen: set<Id> := {};
    var current := id;
    while current !in seen
      invariant RootByWalk(g, id) == Walk(g, id, current, seen)
      decreases |g.Keys - seen|, if current in seen then 0 else 1
    {
      var parent := ParentOf(g, current);
      if parent.None? || parent.value !in g { return current; }
      Smaller(g.Keys, seen, current);
      seen := seen + {current};
      current := parent.value;
    }
    root := id;
  }

  // ---------------------------------------------------------------- the query

  /** The n-th message above id, as long as the replies lead to known messages. */
  function Up(g: Replies, id: Id, n: nat): Option<Id> {
    if n == 0 then Some(id)
    else
      var below := Up(g, id, n - 1);
      if below.None? || ParentOf(g, below.value).None? || ParentOf(g, below.value).value !in g then None else ParentOf(g, below.value)
  }

  ghost predicate Reaches(g: Replies, id: Id, x: Id) { exists n: nat :: Up(g, id, n) == Some(x) }

  /** (id, root) is a row of the recursive query: id is reached from root, which replies to nothing. */
  ghost predicate Rooted(g: Replies, id: Id, root: Id) { root in g && g[root].None? && Reaches(g, id, root) }

  /** COALESCE((SELECT root …), id). */
  ghost function RootByQuery(g: Replies, id: Id): Id { if root: Id :| Rooted(g, id, root) then root else id }

  /** The chain of replies leaves the known messages: its last known message answers an unknown one. */
  ghost predicate Dangles(g: Replies, id: Id, last: Id) {
    last in g && g[last].Some? && g[last].value !in g && Reaches(g, id, last)
  }

  lemma {:induction false} UpContinues(g: Replies, id: Id, m: nat, n: nat)
    requires Up(g, id, m).Some?
    ensures Up(g, id, m + n) == Up(g, Up(g, id, m).value, n)
    decreases n
  {
    if n > 0 { UpContinues(g, id, m, n - 1); }
  }

  lemma {:induction false} UpIsPrefixClosed(g: Replies, id: Id, m: nat, n: nat)
    requires m <= n && Up(g, id, n).Some?
    ensures Up(g, id, m).Some?
    decreases n - m
  {
    if m < n { UpIsPrefixClosed(g, id, m, n - 1); }
  }

  ghost predicate Endless(g: Replies, id: Id) { forall n: nat :: Up(g, id, n).Some? ==> !Ends(g, Up(g, id, n).value) }

  predicate Ends(g: Replies, m: Id) { ParentOf(g, m).None? || ParentOf(g, m).value !in g }

  /** The chain ends at one place at most. */
  lemma OneEnd(g: Replies, id: Id, m: nat, n: nat)
    requires Up(g, id, m).Some? && Up(g, id, n).Some? && Ends(g, Up(g, id, m).value)
    ensures n <= m
  {
    if n > m { UpIsPrefixClosed(g, id, m + 1, n); }
  }

  /** A chain that meets a message again never ends. */
  lemma {:induction false} CyclesNeverEnd(g: Replies, id: Id, i: nat, j: nat, n: nat)
    requires i < j && Up(g, id, i).Some? && Up(g, id, j) == Up(g, id, i) && Up(g, id, n).Some?
    ensures !Ends(g, Up(g, id, n).value)
    decreases n
  {
    if n < j {
      if Ends(g, Up(g, id, n).value) { OneEnd(g, id, n, j); assert false; }
    } else {
      var back := n - (j - i);
      UpContinues(g, id, j, n - j);
      UpContinues(g, id, i, n - j);
      assert back == i + (n - j);
      CyclesNeverEnd(g, id, i, j, back);
    }
  }

  ghost predicate Passed(g: Replies, id: Id, k: nat, x: Id) { exists i: nat :: i < k && Up(g, id, i) == Some(x) }

  /** Where the walk stands: k steps above id, having seen exactly the k messages below, all different. */
  ghost predicate Stands(g: Replies, id: Id, current: Id, seen: set<Id>, k: nat) {
    Up(g, id, k) == Some(current) && forall x :: x in seen <==> Passed(g, id, k, x)
  }

  /** The walk finds the end of the chain if it has one, and falls back to the message itself on a cycle. */
  lemma {:induction false} WalkFindsTheEnd(g: Replies, id: Id, current: Id, seen: set<Id>, k: nat)
    requires Stands(g, id, current, seen, k)
    ensures var w := Walk(g, id, current, seen);
      (Ends(g, w) && Reaches(g, id, w)) || (w == id && Endless(g, id))
    decreases |g.Keys - seen|
  {
    hide Up, Ends;
    assert Ends(g, current) <==> ParentOf(g, current).None? || ParentOf(g, current).value !in g by { EndsIs(g, current); }
    if current in seen {
      var i: nat :| i < k && Up(g, id, i) == Some(current);
      forall n: nat | Up(g, id, n).Some? ensures !Ends(g, Up(g, id, n).value) { CyclesNeverEnd(g, id, i, k, n); }
    } else if !Ends(g, current) {
      Smaller(g.Keys, seen, current);
      OneStepUp(g, id, current, seen, k);
      WalkFindsTheEnd(g, id, ParentOf(g, current).value, seen + {current}, k + 1);
    } else {
      assert Up(g, id, k) == Some(current);
    }
  }

  lemma EndsIs(g: Replies, m: Id)
    ensures Ends(g, m) <==> ParentOf(g, m).None? || ParentOf(g, m).value !in g
  {
  }

  lemma OneStepUp(g: Replies, id: Id, current: Id, seen: set<Id>, k: nat)
    requires Stands(g, id, current, seen, k) && !Ends(g, current)
    ensures Stands(g, id, ParentOf(g, current).value, seen + {current}, k + 1)
  {
    forall x ensures x in seen + {current} <==> Passed(g, id, k + 1, x) { PassedGrows(g, id, k, x); }
  }

  lemma PassedGrows(g: Replies, id: Id, k: nat, x: Id)
    ensures Passed(g, id, k + 1, x) <==> Passed(g, id, k, x) || Up(g, id, k) == Some(x)
  {
    if Passed(g, id, k, x) {
      var i: nat :| i < k && Up(g, id, i) == Some(x);
      assert i < k + 1;
    }
  }

  lemma WalkIs(g: Replies, id: Id)
    ensures var w := RootByWalk(g, id);
      (Ends(g, w) && Reaches(g, id, w)) || (w == id && Endless(g, id))
  {
    assert Stands(g, id, id, {}, 0);
    WalkFindsTheEnd(g, id, id, {}, 0);
  }

  lemma SameEnd(g: Replies, id: Id, x: Id, y: Id)
    requires Ends(g, x) && Ends(g, y) && Reaches(g, id, x) && Reaches(g, id, y)
    ensures x == y
  {
    var m: nat :| Up(g, id, m) == Some(x);
    var n: nat :| Up(g, id, n) == Some(y);
    OneEnd(g, id, m, n);
    OneEnd(g, id, n, m);
  }

  /** Walk and query agree on a message exactly unless its replies lead, over at least one step, to a message that answers an unknown one.
      Cycles and whatever hangs off them are no exception. */
  lemma WalkAndQueryAgree(g: Replies, id: Id)
    requires id in g
    ensures RootByWalk(g, id) == RootByQuery(g, id) <==> forall last :: Dangles(g, id, last) ==> last == id
  {
    WalkIs(g, id);
    var w := RootByWalk(g, id);
    assert Up(g, id, 0) == Some(id);
    if exists root :: Rooted(g, id, root) {
      var root := RootByQuery(g, id);
      assert Rooted(g, id, root) && Ends(g, root);
      HasEnd(g, id, root);
      SameEnd(g, id, w, root);
      forall last ensures !Dangles(g, id, last) { if Dangles(g, id, last) { SameEnd(g, id, last, root); assert false; } }
    } else if Ends(g, w) && Reaches(g, id, w) {
      KnownAbove(g, id, w);
      assert !Rooted(g, id, w);
      assert Dangles(g, id, w);
      forall last | Dangles(g, id, last) ensures last == w { SameEnd(g, id, last, w); }
    } else {
      forall last ensures !Dangles(g, id, last) { if Reaches(g, id, last) && Ends(g, last) { HasEnd(g, id, last); assert false; } }
    }
  }

  lemma HasEnd(g: Replies, id: Id, x: Id)
    requires Reaches(g, id, x) && Ends(g, x)
    ensures !Endless(g, id)
  {
    var n: nat :| Up(g, id, n) == Some(x);
    assert Ends(g, Up(g, id, n).value);
  }

  lemma KnownAbove(g: Replies, id: Id, x: Id)
    requires id in g && Reaches(g, id, x)
    ensures x in g
  {
    var n: nat :| Up(g, id, n) == Some(x);
    KnownUp(g, id, n);
  }

  lemma {:induction false} KnownUp(g: Replies, id: Id, n: nat)
    requires id in g && Up(g, id, n).Some?
    ensures Up(g, id, n).value in g
  {
  }

  /** Every reply answers a known message. */
  predicate ParentClosed(g: Replies) { forall m :: m in g && g[m].Some? ==> g[m].value in g }

  lemma ClosedGraphsAgree(g: Replies, id: Id)
    requires ParentClosed(g) && id in g
    ensures RootByWalk(g, id) == RootByQuery(g, id)
  {
    WalkAndQueryAgree(g, id);
  }

  // ---------------------------------------------------------------- the stored root

  function RepliesOf(st: State): Replies { map m | m in st.messages :: st.messages[m].replyTo }

  lemma {:induction false} StoredIsRooted(st: State, m: Id)
    requires MessagesOk(st) && m in st.messages
    ensures Rooted(RepliesOf(st), m, st.messages[m].threadRoot)
    decreases st.messages[m].sequence
  {
    var g := RepliesOf(st);
    assert MessageOk(st, m, st.messages[m]);
    if st.messages[m].replyTo.None? {
      assert Up(g, m, 0) == Some(m);
    } else {
      var parent := st.messages[m].replyTo.value;
      StoredIsRooted(st, parent);
      var n: nat :| Up(g, parent, n) == Some(st.messages[parent].threadRoot);
      assert Up(g, m, 1) == Some(parent);
      UpContinues(g, m, 1, n);
    }
  }

  /** In every state that the session service reaches, the root stored with a message is the one that a reader finds by walking and the
      one that the recursive query computes. */
  lemma {:induction false} RootsAgree(slots: set<Slot>, cmds: seq<Command>, m: Id)
    requires m in Reached(slots, cmds).messages
    ensures var st := Reached(slots, cmds);
      RootByWalk(RepliesOf(st), m) == st.messages[m].threadRoot == RootByQuery(RepliesOf(st), m)
  {
    hide Reached, AgentsOk, CandidatesOk, RunsOk, MessagesDistinct, OneLiveCandidate, OneRunPerSlot, CountOk, CoverageOk, ReadyOk, RunsFenced;
    ReachedInv(slots, cmds);
    var st := Reached(slots, cmds);
    var g := RepliesOf(st);
    StoredIsRooted(st, m);
    forall x | x in st.messages && st.messages[x].replyTo.Some? ensures st.messages[x].replyTo.value in st.messages { assert MessageOk(st, x, st.messages[x]); }
    ClosedGraphsAgree(g, m);
    var root := RootByQuery(g, m);
    assert Rooted(g, m, root);
    SameEnd(g, m, root, st.messages[m].threadRoot);
  }
}
