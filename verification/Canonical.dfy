/** The canonical text of JSON values, over which receipts take their digests. */
module Canonical {

  /** A number stands for its printed form. */
  datatype Json = Null | Bool(b: bool) | Num(digits: string) | Str(s: string) | Arr(items: seq<Json>) | Obj(entries: seq<Entry>)

  datatype Entry = Entry(key: string, value: Json)

  // ---------------------------------------------------------------- scalars

  function Hex(n: nat): char
    requires n < 16
  {
    if n < 10 then '0' + n as char else 'a' + (n - 10) as char
  }

  /** How one character is written inside a string literal. */
  function Escape(c: char): string {
    if c == '\"' then "\\\""
    else if c == '\\' then "\\\\"
    else if c == 8 as char then "\\b"
    else if c == 9 as char then "\\t"
    else if c == 10 as char then "\\n"
    else if c == 12 as char then "\\f"
    else if c == 13 as char then "\\r"
    else if c < ' ' then ['\\', 'u', '0', '0', Hex(c as int / 16), Hex(c as int % 16)]
    else [c]
  }

  function Escaped(s: string): string { if s == "" then "" else Escape(s[0]) + Escaped(s[1..]) }

  function Quote(s: string): string { "\"" + Escaped(s) + "\"" }

  predicate NumberChar(c: char) { '0' <= c <= '9' || c == '-' || c == '+' || c == '.' || c == 'e' || c == 'E' }

  predicate NumberText(s: string) { s != "" && (s[0] == '-' || '0' <= s[0] <= '9') && forall i :: 0 <= i < |s| ==> NumberChar(s[i]) }

  // ---------------------------------------------------------------- objects

  /** The comparator of the sort. */
  type Less = (string, string) -> bool

  predicate Indices(order: seq<nat>, n: nat) { forall p :: 0 <= p < |order| ==> order[p] < n }

  /** The indices of the entries in the order of their keys; entries that compare equal stay in order. */
  function Insert(less: Less, entries: seq<Entry>, order: seq<nat>, i: nat): (next: seq<nat>)
    requires i < |entries| && Indices(order, |entries|)
    ensures Indices(next, |entries|) && |next| == |order| + 1
  {
    if order == [] then [i]
    else if less(entries[i].key, entries[order[|order| - 1]].key) then Insert(less, entries, order[..|order| - 1], i) + [order[|order| - 1]]
    else order + [i]
  }

  function Order(less: Less, entries: seq<Entry>, n: nat): (order: seq<nat>)
    requires n <= |entries|
    ensures Indices(order, |entries|) && |order| == n
  {
    if n == 0 then [] else Insert(less, entries, Order(less, entries, n - 1), n - 1)
  }

  /** How often k occurs. */
  function Times(order: seq<nat>, k: nat): nat {
    if order == [] then 0 else Times(order[..|order| - 1], k) + (if order[|order| - 1] == k then 1 else 0)
  }

  lemma {:induction false} TimesOf(order: seq<nat>, k: nat)
    ensures Times(order, k) > 0 ==> exists i :: 0 <= i < |order| && order[i] == k
    ensures forall i, j :: 0 <= i < j < |order| && order[i] == k && order[j] == k ==> Times(order, k) >= 2
    ensures (exists i :: 0 <= i < |order| && order[i] == k) ==> Times(order, k) >= 1
  {
    if order != [] {
      var last := |order| - 1;
      TimesOf(order[..last], k);
      if Times(order[..last], k) > 0 {
        var i :| 0 <= i < last && order[..last][i] == k;
        assert order[i] == k;
      }
      forall i, j | 0 <= i < j < |order| && order[i] == k && order[j] == k ensures Times(order, k) >= 2 {
        assert order[..last][i] == k;
        if j < last { assert order[..last][j] == k; }
      }
      if exists i :: 0 <= i < |order| && order[i] == k {
        var i :| 0 <= i < |order| && order[i] == k;
        if i < last { assert order[..last][i] == k; }
      }
    }
  }

  lemma {:induction false} InsertKeeps(less: Less, entries: seq<Entry>, order: seq<nat>, i: nat)
    requires i < |entries| && Indices(order, |entries|)
    ensures forall k: nat :: Times(Insert(less, entries, order, i), k) == Times(order, k) + (if k == i then 1 else 0)
  {
    if order != [] {
      var last := |order| - 1;
      InsertKeeps(less, entries, order[..last], i);
      if less(entries[i].key, entries[order[last]].key) {
        var head := Insert(less, entries, order[..last], i);
        assert (head + [order[last]])[..|head|] == head;
      } else {
        assert (order + [i])[..|order|] == order;
      }
    }
  }

  /** Sorting loses no index and repeats none. */
  lemma {:induction false} OrderIsPermutation(less: Less, entries: seq<Entry>, n: nat)
    requires n <= |entries|
    ensures forall k: nat :: Times(Order(less, entries, n), k) == if k < n then 1 else 0
  {
    if n > 0 {
      OrderIsPermutation(less, entries, n - 1);
      InsertKeeps(less, entries, Order(less, entries, n - 1), n - 1);
    }
  }

  // ---------------------------------------------------------------- the printer

  function Width(v: Json): nat { if v.Arr? then |v.items| else if v.Obj? then |v.entries| else 0 }

  function Print(less: Less, v: Json): string
    decreases v, Width(v) + 2
  {
    match v
    case Null => "null"
    case Bool(b) => if b then "true" else "false"
    case Num(digits) => digits
    case Str(s) => Quote(s)
    case Arr(items) => "[" + PrintItems(less, v, 0) + "]"
    case Obj(entries) => "{" + PrintEntries(less, v, Order(less, entries, |entries|), 0) + "}"
  }

  /** The items from i on, separated by commas. */
  function PrintItems(less: Less, v: Json, i: nat): string
    requires v.Arr? && i <= |v.items|
    decreases v, |v.items| - i + 1
  {
    if i == |v.items| then "" else Print(less, v.items[i]) + (if i + 1 == |v.items| then "" else "," + PrintItems(less, v, i + 1))
  }

  function PrintEntries(less: Less, v: Json, order: seq<nat>, i: nat): string
    requires v.Obj? && Indices(order, |v.entries|) && i <= |order| == |v.entries|
    decreases v, |order| - i + 1
  {
    if i == |order| then ""
    else
      var e := v.entries[order[i]];
      Quote(e.key) + ":" + Print(less, e.value) + (if i + 1 == |order| then "" else "," + PrintEntries(less, v, order, i + 1))
  }

  // ---------------------------------------------------------------- equality up to the order of keys

  /** Numbers have a printed form and no object has a key twice. */
  predicate Proper(v: Json)
    decreases v
  {
    match v
    case Num(digits) => NumberText(digits)
    case Arr(items) => forall i :: 0 <= i < |items| ==> Proper(items[i])
    case Obj(entries) => (forall i :: 0 <= i < |entries| ==> Proper(entries[i].value)) && forall i, j :: 0 <= i < j < |entries| ==> entries[i].key != entries[j].key
    case _ => true
  }

  ghost predicate Alike(a: Json, b: Json)
    decreases a
  {
    match a
    case Arr(items) => b.Arr? && |b.items| == |items| && forall i :: 0 <= i < |items| ==> Alike(items[i], b.items[i])
    case Obj(entries) =>
      b.Obj? && |b.entries| == |entries| && forall i :: 0 <= i < |entries| ==> Matched(entries[i], b.entries)
    case _ => a == b
  }

  ghost predicate Matched(e: Entry, others: seq<Entry>)
    decreases e
  {
    exists j :: 0 <= j < |others| && others[j].key == e.key && Alike(e.value, others[j].value)
  }

  // ---------------------------------------------------------------- reading a text back

  /** What may follow a value. */
  predicate Ends(s: string) { s == "" || s[0] in {',', ']', '}'} }

  lemma EscapeIsPrefixFree(c: char, d: char, x: string, y: string)
    requires Escape(c) + x == Escape(d) + y
    ensures c == d && x == y
  {
    var l, r := Escape(c) + x, Escape(d) + y;
    assert l[0] == Escape(c)[0] && r[0] == Escape(d)[0];
    if |Escape(c)| > 1 && |Escape(d)| > 1 {
      assert l[1] == Escape(c)[1] && r[1] == Escape(d)[1];
      if |Escape(c)| == 6 && |Escape(d)| == 6 {
        assert l[4] == Escape(c)[4] && r[4] == Escape(d)[4] && l[5] == Escape(c)[5] && r[5] == Escape(d)[5];
        HexIsInjective(c as int / 16, d as int / 16);
        HexIsInjective(c as int % 16, d as int % 16);
      }
    }
    assert c == d;
    assert x == l[|Escape(c)|..] && y == r[|Escape(d)|..];
  }

  lemma HexIsInjective(m: nat, n: nat)
    requires m < 16 && n < 16
    ensures Hex(m) == Hex(n) ==> m == n
  {
  }

  /** The text after the opening quote begins with the closing one exactly if the string is empty. */
  lemma Head(s: string, x: string)
    ensures (Escaped(s) + "\"" + x)[0] == '\"' <==> s == ""
  {
    if s != "" { assert (Escaped(s) + "\"" + x)[0] == Escape(s[0])[0]; }
  }

  lemma Tail(s: string, x: string)
    ensures s != "" ==> Escaped(s) + "\"" + x == Escape(s[0]) + (Escaped(s[1..]) + "\"" + x)
    ensures s == "" ==> Escaped(s) + "\"" + x == "\"" + x
  {
    if s != "" { assert Escape(s[0]) + Escaped(s[1..]) + "\"" + x == Escape(s[0]) + (Escaped(s[1..]) + "\"" + x); }
  }

  /** A string literal shows where it ends. */
  lemma {:induction false} QuoteIsPrefixFree(s: string, t: string, x: string, y: string)
    requires Escaped(s) + "\"" + x == Escaped(t) + "\"" + y
    ensures s == t && x == y
    decreases |s|
  {
    hide Escape, Escaped;
    Head(s, x);
    Head(t, y);
    Tail(s, x);
    Tail(t, y);
    if s == "" {
      assert x == ("\"" + x)[1..] && y == ("\"" + y)[1..];
    } else {
      EscapeIsPrefixFree(s[0], t[0], Escaped(s[1..]) + "\"" + x, Escaped(t[1..]) + "\"" + y);
      QuoteIsPrefixFree(s[1..], t[1..], x, y);
      assert s == [s[0]] + s[1..] && t == [t[0]] + t[1..];
    }
  }

  lemma QuotedSplits(s: string, t: string, x: string, y: string)
    requires Quote(s) + x == Quote(t) + y
    ensures s == t && x == y
  {
    var l, r := Quote(s) + x, Quote(t) + y;
    assert l[1..] == Escaped(s) + "\"" + x && r[1..] == Escaped(t) + "\"" + y;
    QuoteIsPrefixFree(s, t, x, y);
  }

  /** A number ends where the characters of numbers end. */
  lemma {:induction false} NumbersSplit(m: string, n: string, x: string, y: string)
    requires (forall i :: 0 <= i < |m| ==> NumberChar(m[i])) && (forall i :: 0 <= i < |n| ==> NumberChar(n[i])) && Ends(x) && Ends(y) && m + x == n + y
    ensures m == n && x == y
    decreases |m|
  {
    NumberHead(m, x);
    NumberHead(n, y);
    if m != "" {
      var l, r := m + x, n + y;
      assert l[0] == m[0] && r[0] == n[0] && l[1..] == m[1..] + x && r[1..] == n[1..] + y;
      NumbersSplit(m[1..], n[1..], x, y);
      assert m == [m[0]] + m[1..] && n == [n[0]] + n[1..];
    } else {
      assert m + x == x && n + y == y;
    }
  }

  lemma NumberHead(m: string, x: string)
    requires (forall i :: 0 <= i < |m| ==> NumberChar(m[i])) && Ends(x)
    ensures m == "" <==> m + x == "" || !NumberChar((m + x)[0])
  {
    if m != "" { assert (m + x)[0] == m[0]; } else { assert m + x == x; }
  }

  // ---------------------------------------------------------------- the kind of a value shows in its first character

  function Kind(c: char): nat {
    if c == 'n' then 0 else if c == 't' || c == 'f' then 1 else if c == '\"' then 3 else if c == '[' then 4 else if c == '{' then 5 else 2
  }

  function KindOf(v: Json): nat {
    match v case Null => 0 case Bool(_) => 1 case Num(_) => 2 case Str(_) => 3 case Arr(_) => 4 case Obj(_) => 5
  }

  lemma FirstShowsKind(less: Less, v: Json)
    requires Proper(v)
    ensures Print(less, v) != "" && Kind(Print(less, v)[0]) == KindOf(v)
  {
    if v.Str? { assert Print(less, v)[0] == '\"'; }
  }

  lemma SameKind(less: Less, a: Json, b: Json, x: string, y: string)
    requires Proper(a) && Proper(b) && Print(less, a) + x == Print(less, b) + y
    ensures KindOf(a) == KindOf(b)
  {
    hide Print, Proper;
    FirstShowsKind(less, a);
    FirstShowsKind(less, b);
    assert (Print(less, a) + x)[0] == Print(less, a)[0] && (Print(less, b) + y)[0] == Print(less, b)[0];
  }

  lemma Cancel(p: string, x: string, y: string)
    ensures p + x == p + y ==> x == y
  {
    assert x == (p + x)[|p|..] && y == (p + y)[|p|..];
  }

  // ---------------------------------------------------------------- equal texts come from values that are alike

  /** A value's text shows where it ends, and which value it is up to the order of keys. */
  lemma {:induction false} PrintSplits(less: Less, a: Json, b: Json, x: string, y: string)
    requires Proper(a) && Proper(b) && Ends(x) && Ends(y) && Print(less, a) + x == Print(less, b) + y
    ensures Alike(a, b) && x == y
    decreases a, Width(a) + 3
  {
    hide Print, Proper, Alike, NumberText, Quote;
    SameKind(less, a, b, x, y);
    if a.Arr? { ArraysSplit(less, a, b, x, y); } else if a.Obj? { ObjectsSplit(less, a, b, x, y); } else { ScalarsSplit(less, a, b, x, y); }
  }

  lemma ScalarsSplit(less: Less, a: Json, b: Json, x: string, y: string)
    requires Proper(a) && Proper(b) && Ends(x) && Ends(y) && Print(less, a) + x == Print(less, b) + y && KindOf(a) == KindOf(b) && !a.Arr? && !a.Obj?
    ensures Alike(a, b) && x == y
  {
    hide Quote;
    match a
    case Null => Cancel("null", x, y);
    case Bool(p) => BoolsSplit(p, b.b, x, y);
    case Num(digits) => NumbersSplit(digits, b.digits, x, y);
    case Str(s) => QuotedSplits(s, b.s, x, y);
  }

  lemma ArraysSplit(less: Less, a: Json, b: Json, x: string, y: string)
    requires a.Arr? && b.Arr? && Proper(a) && Proper(b) && Print(less, a) + x == Print(less, b) + y
    ensures Alike(a, b) && x == y
    decreases a, Width(a) + 2
  {
    hide Proper, PrintItems;
    assert (Print(less, a) + x)[1..] == PrintItems(less, a, 0) + ("]" + x) && (Print(less, b) + y)[1..] == PrintItems(less, b, 0) + ("]" + y);
    ItemsSplit(less, a, b, 0, x, y);
  }

  lemma ObjectsSplit(less: Less, a: Json, b: Json, x: string, y: string)
    requires a.Obj? && b.Obj? && Proper(a) && Proper(b) && Print(less, a) + x == Print(less, b) + y
    ensures Alike(a, b) && x == y
    decreases a, Width(a) + 2
  {
    hide Proper, PrintEntries, Alike;
    var oa, ob := Order(less, a.entries, |a.entries|), Order(less, b.entries, |b.entries|);
    assert (Print(less, a) + x)[1..] == PrintEntries(less, a, oa, 0) + ("}" + x) && (Print(less, b) + y)[1..] == PrintEntries(less, b, ob, 0) + ("}" + y);
    EntriesSplit(less, a, b, oa, ob, 0, x, y);
    PairsAreAlike(less, a, b, oa, ob);
  }

  lemma BoolsSplit(p: bool, q: bool, x: string, y: string)
    requires (if p then "true" else "false") + x == (if q then "true" else "false") + y
    ensures p == q && x == y
  {
    var l, r := (if p then "true" else "false") + x, (if q then "true" else "false") + y;
    assert l[0] == (if p then 't' else 'f') && r[0] == if q then 't' else 'f';
    Cancel(if p then "true" else "false", x, y);
  }

  /** What follows item i. */
  function AfterItem(less: Less, v: Json, i: nat, x: string): string
    requires v.Arr? && i < |v.items|
  {
    if i + 1 == |v.items| then "]" + x else "," + (PrintItems(less, v, i + 1) + ("]" + x))
  }

  lemma ItemsUnfold(less: Less, v: Json, i: nat, x: string)
    requires v.Arr? && i <= |v.items|
    ensures i < |v.items| ==> PrintItems(less, v, i) + ("]" + x) == Print(less, v.items[i]) + AfterItem(less, v, i, x)
    ensures i == |v.items| ==> PrintItems(less, v, i) + ("]" + x) == "]" + x
  {
    hide Print;
    if i + 1 < |v.items| {
      assert Print(less, v.items[i]) + ("," + PrintItems(less, v, i + 1)) + ("]" + x) == Print(less, v.items[i]) + ("," + (PrintItems(less, v, i + 1) + ("]" + x)));
    }
  }

  lemma NeverClosing(less: Less, v: Json, x: string)
    requires Proper(v)
    ensures (Print(less, v) + x)[0] != ']' && (Print(less, v) + x)[0] != '}'
  {
    FirstShowsKind(less, v);
    assert (Print(less, v) + x)[0] == Print(less, v)[0];
  }

  lemma {:induction false} ItemsSplit(less: Less, a: Json, b: Json, i: nat, x: string, y: string)
    requires a.Arr? && b.Arr? && Proper(a) && Proper(b) && i <= |a.items| && i <= |b.items|
    requires PrintItems(less, a, i) + ("]" + x) == PrintItems(less, b, i) + ("]" + y)
    ensures |a.items| == |b.items| && x == y && forall k :: i <= k < |a.items| ==> Alike(a.items[k], b.items[k])
    decreases a, |a.items| - i + 1
  {
    hide Print, PrintItems, Alike;
    ItemsUnfold(less, a, i, x);
    ItemsUnfold(less, b, i, y);
    if i < |a.items| { NeverClosing(less, a.items[i], AfterItem(less, a, i, x)); }
    if i < |b.items| { NeverClosing(less, b.items[i], AfterItem(less, b, i, y)); }
    if i == |a.items| {
      Cancel("]", x, y);
    } else {
      PrintSplits(less, a.items[i], b.items[i], AfterItem(less, a, i, x), AfterItem(less, b, i, y));
      if i + 1 == |a.items| {
        Cancel("]", x, y);
      } else {
        Cancel(",", PrintItems(less, a, i + 1) + ("]" + x), PrintItems(less, b, i + 1) + ("]" + y));
        ItemsSplit(less, a, b, i + 1, x, y);
      }
    }
  }

  /** What follows the entry at place i of the order. */
  function AfterEntry(less: Less, v: Json, order: seq<nat>, i: nat, x: string): string
    requires v.Obj? && Indices(order, |v.entries|) && i < |order| == |v.entries|
  {
    if i + 1 == |order| then "}" + x else "," + (PrintEntries(less, v, order, i + 1) + ("}" + x))
  }

  lemma EntriesUnfold(less: Less, v: Json, order: seq<nat>, i: nat, x: string)
    requires v.Obj? && Indices(order, |v.entries|) && i <= |order| == |v.entries|
    ensures i < |order| ==>
      PrintEntries(less, v, order, i) + ("}" + x) == Quote(v.entries[order[i]].key) + (":" + (Print(less, v.entries[order[i]].value) + AfterEntry(less, v, order, i, x)))
    ensures i == |order| ==> PrintEntries(less, v, order, i) + ("}" + x) == "}" + x
  {
    hide Quote, Print;
    if i < |order| {
      var e := v.entries[order[i]];
      var tail := if i + 1 == |order| then "" else "," + PrintEntries(less, v, order, i + 1);
      TailJoins(less, v, order, i, x, tail);
      Joins(Quote(e.key), Print(less, e.value), tail, "}" + x);
    }
  }

  lemma TailJoins(less: Less, v: Json, order: seq<nat>, i: nat, x: string, tail: string)
    requires v.Obj? && Indices(order, |v.entries|) && i < |order| == |v.entries|
    requires tail == if i + 1 == |order| then "" else "," + PrintEntries(less, v, order, i + 1)
    ensures tail + ("}" + x) == AfterEntry(less, v, order, i, x)
  {
    hide PrintEntries;
  }

  lemma Joins(k: string, v: string, tail: string, x: string)
    ensures k + ":" + v + tail + x == k + (":" + (v + (tail + x)))
  {
  }

  lemma QuoteIsQuoted(s: string, x: string)
    ensures (Quote(s) + x)[0] == '\"'
  {
  }

  lemma {:induction false} EntriesSplit(less: Less, a: Json, b: Json, oa: seq<nat>, ob: seq<nat>, i: nat, x: string, y: string)
    requires a.Obj? && b.Obj? && Proper(a) && Proper(b) && Indices(oa, |a.entries|) && Indices(ob, |b.entries|)
    requires i <= |oa| == |a.entries| && i <= |ob| == |b.entries|
    requires PrintEntries(less, a, oa, i) + ("}" + x) == PrintEntries(less, b, ob, i) + ("}" + y)
    ensures |oa| == |ob| && x == y
    ensures forall k :: i <= k < |oa| ==> a.entries[oa[k]].key == b.entries[ob[k]].key && Alike(a.entries[oa[k]].value, b.entries[ob[k]].value)
    decreases a, |oa| - i + 1
  {
    hide Print, PrintEntries, Alike, Quote;
    EntriesUnfold(less, a, oa, i, x);
    EntriesUnfold(less, b, ob, i, y);
    if i < |oa| { QuoteIsQuoted(a.entries[oa[i]].key, ":" + (Print(less, a.entries[oa[i]].value) + AfterEntry(less, a, oa, i, x))); }
    if i < |ob| { QuoteIsQuoted(b.entries[ob[i]].key, ":" + (Print(less, b.entries[ob[i]].value) + AfterEntry(less, b, ob, i, y))); }
    if i == |oa| {
      Cancel("}", x, y);
    } else {
      var e, f := a.entries[oa[i]], b.entries[ob[i]];
      var restA, restB := Print(less, e.value) + AfterEntry(less, a, oa, i, x), Print(less, f.value) + AfterEntry(less, b, ob, i, y);
      QuotedSplits(e.key, f.key, ":" + restA, ":" + restB);
      Cancel(":", restA, restB);
      PrintSplits(less, e.value, f.value, AfterEntry(less, a, oa, i, x), AfterEntry(less, b, ob, i, y));
      if i + 1 == |oa| {
        Cancel("}", x, y);
      } else {
        Cancel(",", PrintEntries(less, a, oa, i + 1) + ("}" + x), PrintEntries(less, b, ob, i + 1) + ("}" + y));
        EntriesSplit(less, a, b, oa, ob, i + 1, x, y);
      }
    }
  }

  /** Every index has its place in the order. */
  lemma PlaceOf(less: Less, entries: seq<Entry>, p: nat)
    requires p < |entries|
    ensures exists k :: 0 <= k < |entries| && Order(less, entries, |entries|)[k] == p
  {
    OrderIsPermutation(less, entries, |entries|);
    TimesOf(Order(less, entries, |entries|), p);
  }

  lemma PairsAreAlike(less: Less, a: Json, b: Json, oa: seq<nat>, ob: seq<nat>)
    requires a.Obj? && b.Obj? && oa == Order(less, a.entries, |a.entries|) && ob == Order(less, b.entries, |b.entries|) && |oa| == |ob|
    requires forall k :: 0 <= k < |oa| ==> a.entries[oa[k]].key == b.entries[ob[k]].key && Alike(a.entries[oa[k]].value, b.entries[ob[k]].value)
    ensures Alike(a, b)
  {
    hide Order;
    forall p | 0 <= p < |a.entries| ensures Matched(a.entries[p], b.entries) {
      PlaceOf(less, a.entries, p);
      var k :| 0 <= k < |a.entries| && Order(less, a.entries, |a.entries|)[k] == p;
      assert b.entries[ob[k]].key == a.entries[p].key && Alike(a.entries[p].value, b.entries[ob[k]].value);
    }
  }

  // ---------------------------------------------------------------- values that are alike have equal texts

  function Keys(entries: seq<Entry>): set<string> { set i | 0 <= i < |entries| :: entries[i].key }

  /** The comparator is a strict total order on these keys. */
  ghost predicate Orders(less: Less, keys: set<string>) {
    && (forall x :: x in keys ==> !less(x, x))
    && (forall x, y :: x in keys && y in keys && x != y ==> less(x, y) || less(y, x))
    && forall x, y, z :: x in keys && y in keys && z in keys && less(x, y) && less(y, z) ==> less(x, z)
  }

  ghost predicate OrdersAll(less: Less, v: Json)
    decreases v
  {
    match v
    case Arr(items) => forall i :: 0 <= i < |items| ==> OrdersAll(less, items[i])
    case Obj(entries) => Orders(less, Keys(entries)) && forall i :: 0 <= i < |entries| ==> OrdersAll(less, entries[i].value)
    case _ => true
  }

  ghost predicate Rising(less: Less, ks: seq<string>) { forall p, q :: 0 <= p < q < |ks| ==> less(ks[p], ks[q]) }

  function InsertKey(less: Less, ks: seq<string>, k: string): seq<string> {
    if ks == [] then [k] else if less(k, ks[|ks| - 1]) then InsertKey(less, ks[..|ks| - 1], k) + [ks[|ks| - 1]] else ks + [k]
  }

  lemma {:induction false} InsertKeyRises(less: Less, keys: set<string>, ks: seq<string>, k: string)
    requires Orders(less, keys) && (forall x :: x in ks ==> x in keys) && k in keys && k !in ks && Rising(less, ks)
    ensures Rising(less, InsertKey(less, ks, k)) && forall x :: x in InsertKey(less, ks, k) <==> x in ks || x == k
  {
    hide Orders, Rising;
    if ks != [] {
      var last := |ks| - 1;
      assert ks == ks[..last] + [ks[last]] && ks[last] in ks;
      Compares(less, keys, k, ks[last]);
      RisingParts(less, ks);
      if less(k, ks[last]) {
        InsertKeyRises(less, keys, ks[..last], k);
        RisingJoins(less, InsertKey(less, ks[..last], k), ks[last]);
      } else {
        forall x | x in ks ensures less(x, k) { if x != ks[last] { Between(less, keys, x, ks[last], k); } }
        RisingJoins(less, ks, k);
      }
    } else {
      NothingRises(less, ks);
      RisingJoins(less, ks, k);
      assert ks + [k] == [k];
    }
  }

  lemma NothingRises(less: Less, ks: seq<string>)
    requires ks == []
    ensures Rising(less, ks)
  {
  }

  lemma Compares(less: Less, keys: set<string>, x: string, y: string)
    requires Orders(less, keys) && x in keys && y in keys
    ensures x != y ==> less(x, y) || less(y, x)
  {
  }

  lemma Between(less: Less, keys: set<string>, x: string, y: string, z: string)
    requires Orders(less, keys) && x in keys && y in keys && z in keys && less(x, y) && less(y, z)
    ensures less(x, z)
  {
  }

  lemma RisingParts(less: Less, ks: seq<string>)
    requires Rising(less, ks) && ks != []
    ensures Rising(less, ks[..|ks| - 1]) && forall i :: 0 <= i < |ks| - 1 ==> less(ks[i], ks[|ks| - 1])
    ensures forall x :: x in ks && x != ks[|ks| - 1] ==> less(x, ks[|ks| - 1])
  {
  }

  lemma RisingJoins(less: Less, ks: seq<string>, k: string)
    requires Rising(less, ks) && forall x :: x in ks ==> less(x, k)
    ensures Rising(less, ks + [k])
  {
  }

  function KeyList(entries: seq<Entry>, order: seq<nat>): seq<string>
    requires Indices(order, |entries|)
  {
    seq(|order|, i requires 0 <= i < |order| => entries[order[i]].key)
  }

  lemma {:induction false} InsertIsByKey(less: Less, entries: seq<Entry>, order: seq<nat>, i: nat)
    requires i < |entries| && Indices(order, |entries|)
    ensures KeyList(entries, Insert(less, entries, order, i)) == InsertKey(less, KeyList(entries, order), entries[i].key)
  {
    if order != [] {
      var last := |order| - 1;
      InsertIsByKey(less, entries, order[..last], i);
      assert KeyList(entries, order)[..last] == KeyList(entries, order[..last]);
    }
  }

  lemma {:induction false} OrderRises(less: Less, entries: seq<Entry>, n: nat)
    requires Orders(less, Keys(entries)) && n <= |entries| && forall i, j :: 0 <= i < j < |entries| ==> entries[i].key != entries[j].key
    ensures Rising(less, KeyList(entries, Order(less, entries, n)))
    ensures forall x :: x in KeyList(entries, Order(less, entries, n)) <==> x in Keys(entries[..n])
  {
    if n > 0 {
      var k := n - 1;
      OrderRises(less, entries, k);
      var ks := KeyList(entries, Order(less, entries, k));
      InsertIsByKey(less, entries, Order(less, entries, k), k);
      forall x | x in Keys(entries[..k]) ensures x in Keys(entries) && x != entries[k].key { var i :| 0 <= i < k && entries[..k][i].key == x; assert entries[i].key == x; }
      InsertKeyRises(less, Keys(entries), ks, entries[k].key);
      PrefixKeys(entries, k);
    }
  }

  lemma PrefixKeys(entries: seq<Entry>, k: nat)
    requires k < |entries|
    ensures Keys(entries[..k + 1]) == Keys(entries[..k]) + {entries[k].key}
  {
    forall x | x in Keys(entries[..k + 1]) ensures x in Keys(entries[..k]) + {entries[k].key} {
      var i :| 0 <= i < k + 1 && entries[..k + 1][i].key == x;
      if i < k { assert entries[..k][i].key == x; }
    }
    forall x | x in Keys(entries[..k]) ensures x in Keys(entries[..k + 1]) {
      var i :| 0 <= i < k && entries[..k][i].key == x;
      assert entries[..k + 1][i].key == x;
    }
    assert entries[..k + 1][k].key == entries[k].key;
  }

  /** Two rising lists of the same keys are the same list. */
  lemma {:induction false} RisingIsUnique(less: Less, keys: set<string>, s: seq<string>, t: seq<string>)
    requires Orders(less, keys) && (forall x :: x in s ==> x in keys) && forall x :: x in s <==> x in t
    requires Rising(less, s) && Rising(less, t)
    ensures s == t
    decreases |s|
  {
    assert t != [] ==> t[0] in t;
    if s != [] {
      assert s[0] in s && s[0] in t;
      assert t[0] in t && t[0] in s;
      var p :| 0 <= p < |t| && t[p] == s[0];
      var q :| 0 <= q < |s| && s[q] == t[0];
      assert s[0] == t[0];
      forall x ensures x in s[1..] <==> x in t[1..] {
        if x in s[1..] { var i :| 0 <= i < |s[1..]| && s[1..][i] == x; assert less(s[0], s[i + 1]) && x in t; }
        if x in t[1..] { var i :| 0 <= i < |t[1..]| && t[1..][i] == x; assert less(t[0], t[i + 1]) && x in s; }
      }
      RisingIsUnique(less, keys, s[1..], t[1..]);
      assert s == [s[0]] + s[1..] && t == [t[0]] + t[1..];
    }
  }

  lemma {:induction false} KeyListIs(less: Less, entries: seq<Entry>)
    requires Proper(Obj(entries)) && Orders(less, Keys(entries))
    ensures var ks := KeyList(entries, Order(less, entries, |entries|)); (forall x :: x in ks <==> x in Keys(entries)) && Rising(less, ks)
  {
    OrderRises(less, entries, |entries|);
    assert entries[..|entries|] == entries;
  }

  lemma AlikeKeys(a: Json, b: Json)
    requires a.Obj? && b.Obj? && Alike(a, b) && Proper(a) && Proper(b)
    ensures Keys(a.entries) == Keys(b.entries)
  {
    forall x | x in Keys(a.entries) ensures x in Keys(b.entries) {
      var i :| 0 <= i < |a.entries| && a.entries[i].key == x;
      var j :| 0 <= j < |b.entries| && b.entries[j].key == a.entries[i].key && Alike(a.entries[i].value, b.entries[j].value);
    }
    KeyCount(a.entries);
    KeyCount(b.entries);
    SubsetOfSameSize(Keys(a.entries), Keys(b.entries));
  }

  lemma {:induction false} KeyCount(entries: seq<Entry>)
    requires forall i, j :: 0 <= i < j < |entries| ==> entries[i].key != entries[j].key
    ensures |Keys(entries)| == |entries|
  {
    if entries != [] {
      var k := |entries| - 1;
      KeyCount(entries[..k]);
      forall i | 0 <= i < k ensures entries[..k][i].key != entries[k].key {}
      assert Keys(entries) == Keys(entries[..k]) + {entries[k].key};
    }
  }

  lemma SubsetOfSameSize(small: set<string>, large: set<string>)
    requires small <= large && |small| == |large|
    ensures small == large
  {
    assert large == small + (large - small);
  }

  lemma {:induction false} AlikePrints(less: Less, a: Json, b: Json)
    requires Proper(a) && Proper(b) && OrdersAll(less, a) && Alike(a, b)
    ensures Print(less, a) == Print(less, b)
    decreases a, Width(a) + 3
  {
    if a.Arr? {
      AlikeItems(less, a, b, 0);
    } else if a.Obj? {
      AlikeKeys(a, b);
      var oa, ob := Order(less, a.entries, |a.entries|), Order(less, b.entries, |b.entries|);
      KeyListIs(less, a.entries);
      KeyListIs(less, b.entries);
      RisingIsUnique(less, Keys(a.entries), KeyList(a.entries, oa), KeyList(b.entries, ob));
      AlikeEntries(less, a, b, oa, ob, 0);
    }
  }

  lemma {:induction false} AlikeItems(less: Less, a: Json, b: Json, i: nat)
    requires a.Arr? && b.Arr? && Proper(a) && Proper(b) && OrdersAll(less, a) && Alike(a, b) && i <= |a.items|
    ensures PrintItems(less, a, i) == PrintItems(less, b, i)
    decreases a, |a.items| - i + 1
  {
    if i < |a.items| {
      AlikePrints(less, a.items[i], b.items[i]);
      AlikeItems(less, a, b, i + 1);
    }
  }

  lemma {:induction false} AlikeEntries(less: Less, a: Json, b: Json, oa: seq<nat>, ob: seq<nat>, i: nat)
    requires a.Obj? && b.Obj? && Proper(a) && Proper(b) && OrdersAll(less, a) && Alike(a, b)
    requires Indices(oa, |a.entries|) && Indices(ob, |b.entries|) && i <= |oa| == |a.entries| && |ob| == |b.entries| && KeyList(a.entries, oa) == KeyList(b.entries, ob)
    ensures PrintEntries(less, a, oa, i) == PrintEntries(less, b, ob, i)
    decreases a, |oa| - i + 1
  {
    if i < |oa| {
      var e, f := a.entries[oa[i]], b.entries[ob[i]];
      assert KeyList(a.entries, oa)[i] == e.key && KeyList(b.entries, ob)[i] == f.key;
      var j :| 0 <= j < |b.entries| && b.entries[j].key == e.key && Alike(e.value, b.entries[j].value);
      assert j == ob[i];
      AlikePrints(less, e.value, f.value);
      AlikeEntries(less, a, b, oa, ob, i + 1);
    }
  }

  /** The canonical text is faithful: on values whose keys the comparator orders, texts are equal exactly if the values are equal up to
      the order of keys. So digests of texts tell payloads apart as far as digests differ. */
  lemma {:induction false} TextsAreFaithful(less: Less, a: Json, b: Json)
    requires Proper(a) && Proper(b) && OrdersAll(less, a)
    ensures Print(less, a) == Print(less, b) <==> Alike(a, b)
  {
    hide Print, Alike, Proper, OrdersAll;
    if Print(less, a) == Print(less, b) {
      assert Print(less, a) + "" == Print(less, b) + "";
      PrintSplits(less, a, b, "", "");
    }
    if Alike(a, b) { AlikePrints(less, a, b); }
  }

  /** Without an order on the keys the texts still never confuse different values, but one value can have two texts: entries that the
      comparator does not tell apart stay in the order in which they were written. */
  lemma UnorderedKeysHaveTwoTexts(less: Less, k: string, l: string)
    requires k != l && !less(k, l) && !less(l, k)
    ensures var a, b := Obj([Entry(k, Null), Entry(l, Null)]), Obj([Entry(l, Null), Entry(k, Null)]);
      Proper(a) && Proper(b) && Alike(a, b) && Print(less, a) != Print(less, b)
  {
    var a, b := Obj([Entry(k, Null), Entry(l, Null)]), Obj([Entry(l, Null), Entry(k, Null)]);
    assert Alike(a.entries[0].value, b.entries[1].value) && Alike(a.entries[1].value, b.entries[0].value);
    assert Order(less, a.entries, 1) == [0] && Order(less, a.entries, 2) == [0, 1];
    assert Order(less, b.entries, 1) == [0] && Order(less, b.entries, 2) == [0, 1];
    TwoEntries(less, a, k, l);
    TwoEntries(less, b, l, k);
    var x, y := ":null," + PrintEntries(less, a, [0, 1], 1) + "}", ":null," + PrintEntries(less, b, [0, 1], 1) + "}";
    if Print(less, a) == Print(less, b) {
      assert Print(less, a)[1..] == Quote(k) + x && Print(less, b)[1..] == Quote(l) + y;
      QuotedSplits(k, l, x, y);
      assert false;
    }
  }

  lemma TwoEntries(less: Less, v: Json, k: string, l: string)
    requires v == Obj([Entry(k, Null), Entry(l, Null)]) && Order(less, v.entries, 2) == [0, 1]
    ensures Print(less, v) == "{" + (Quote(k) + (":null," + PrintEntries(less, v, [0, 1], 1) + "}"))
  {
    hide Quote;
    var tail := PrintEntries(less, v, [0, 1], 1);
    assert PrintEntries(less, v, [0, 1], 0) == Quote(k) + ":" + "null" + ("," + tail);
    assert Quote(k) + ":" + "null" + ("," + tail) + "}" == Quote(k) + (":null," + tail + "}");
    assert Print(less, v) == "{" + PrintEntries(less, v, [0, 1], 0) + "}";
    assert "{" + (Quote(k) + ":" + "null" + ("," + tail)) + "}" == "{" + (Quote(k) + (":null," + tail + "}"));
  }
}
