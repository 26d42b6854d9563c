/** The order both class pages put "YYYY-MM-DD" dates in: JavaScript's default sort and
    localeCompare, taken as lexicographic order on characters, which on such dates is
    chronological order. */
module DateOrder {
  /** `a` sorts strictly before `b`. */
  predicate Less(a: string, b: string)
    decreases |a|
  {
    if |a| == 0 then |b| > 0
    else if |b| == 0 then false
    else a[0] < b[0] || (a[0] == b[0] && Less(a[1..], b[1..]))
  }

  lemma {:induction false} LessIrreflexive(a: string)
    ensures !Less(a, a)
    decreases |a|
  {
    if |a| > 0 {
      LessIrreflexive(a[1..]);
    }
  }

  lemma {:induction false} LessTransitive(a: string, b: string, c: string)
    requires Less(a, b) && Less(b, c)
    ensures Less(a, c)
    decreases |a|
  {
    if |a| > 0 && a[0] == b[0] && b[0] == c[0] {
      LessTransitive(a[1..], b[1..], c[1..]);
    }
  }

  /** Two different strings are ordered one way or the other. */
  lemma {:induction false} LessTotal(a: string, b: string)
    requires a != b
    ensures Less(a, b) || Less(b, a)
    decreases |a|
  {
    if |a| > 0 && |b| > 0 && a[0] == b[0] {
      assert a == [a[0]] + a[1..] && b == [b[0]] + b[1..];
      LessTotal(a[1..], b[1..]);
    }
  }

  /** Strictly increasing: what sorting a list of distinct keys yields. */
  predicate Ascending(s: seq<string>) {
    forall i, j :: 0 <= i < j < |s| ==> Less(s[i], s[j])
  }

  predicate Distinct(s: seq<string>) {
    forall i, j :: 0 <= i < j < |s| ==> s[i] != s[j]
  }

  /** Places `x` before the first element it sorts before. */
  function Insert(x: string, s: seq<string>): (r: seq<string>)
    requires Ascending(s) && x !in s
    ensures Ascending(r) && multiset(r) == multiset(s) + multiset{x}
    ensures |r| == |s| + 1 && (r[0] == x || (s != [] && r[0] == s[0]))
  {
    if s == [] then [x]
    else if Less(x, s[0]) then
      ConsAscending(x, s);
      [x] + s
    else
      assert x != s[0];
      LessTotal(x, s[0]);
      var t := Insert(x, s[1..]);
      assert s == [s[0]] + s[1..];
      assert t[0] == x || t[0] == s[1];
      ConsAscending(s[0], t);
      [s[0]] + t
  }

  /** A head below the first element keeps an increasing list increasing. */
  lemma ConsAscending(h: string, t: seq<string>)
    requires Ascending(t) && (t == [] || Less(h, t[0]))
    ensures Ascending([h] + t)
  {
    forall j | 0 < j < |t| ensures Less(h, t[j]) {
      LessTransitive(h, t[0], t[j]);
    }
  }

  /** Sorting a list of distinct dates. Any correct sort of such a list yields this one
      (AscendingUnique), so the algorithm JavaScript uses does not matter. */
  function Sort(s: seq<string>): (r: seq<string>)
    requires Distinct(s)
    ensures Ascending(r) && multiset(r) == multiset(s)
  {
    if s == [] then []
    else
      assert s == [s[0]] + s[1..];
      var t := Sort(s[1..]);
      assert s[0] !in multiset(t);
      Insert(s[0], t)
  }

  /** A strictly increasing list is determined by its elements. */
  lemma {:induction false} AscendingUnique(a: seq<string>, b: seq<string>)
    requires Ascending(a) && Ascending(b) && multiset(a) == multiset(b)
    ensures a == b
    decreases |a|
  {
    if |a| > 0 {
      assert |b| == |multiset(b)| == |a|;
      SameHead(a, b);
      TailAscending(a);
      TailAscending(b);
      AscendingUnique(a[1..], b[1..]);
    }
  }

  lemma TailAscending(a: seq<string>)
    requires Ascending(a) && |a| > 0
    ensures Ascending(a[1..]) && multiset(a[1..]) == multiset(a) - multiset{a[0]}
  {
    assert a == [a[0]] + a[1..];
  }

  /** Two increasing lists with the same elements start with the same, least, one. */
  lemma SameHead(a: seq<string>, b: seq<string>)
    requires Ascending(a) && Ascending(b) && multiset(a) == multiset(b) && |a| > 0 && |b| > 0
    ensures a[0] == b[0]
  {
    assert a[0] in multiset(b) && b[0] in multiset(a);
    var i :| 0 <= i < |b| && b[i] == a[0];
    var j :| 0 <= j < |a| && a[j] == b[0];
    if a[0] != b[0] {
      LessTransitive(a[0], a[j], b[i]);
      LessIrreflexive(a[0]);
    }
  }

  /** Sorting the keys of one map gives the same list whatever order they are listed in. */
  lemma SortOrderIndependent(o1: seq<string>, o2: seq<string>)
    requires Distinct(o1) && Distinct(o2) && multiset(o1) == multiset(o2)
    ensures Sort(o1) == Sort(o2)
  {
    AscendingUnique(Sort(o1), Sort(o2));
  }

  /** `order` lists the elements of `keys`, each once: an Object.keys order. */
  predicate Lists(order: seq<string>, keys: set<string>) {
    Distinct(order) && (forall k :: k in order ==> k in keys) && (forall k :: k in keys ==> k in order)
  }

  /** Two listings of one set have the same elements. */
  lemma {:induction false} ListingsAgree(o1: seq<string>, o2: seq<string>, keys: set<string>)
    requires Lists(o1, keys) && Lists(o2, keys)
    ensures multiset(o1) == multiset(o2)
  {
    DistinctCounts(o1);
    DistinctCounts(o2);
    forall x ensures multiset(o1)[x] == multiset(o2)[x] {
      assert x in o1 <==> x in o2;
    }
  }

  lemma {:induction false} DistinctCounts(s: seq<string>)
    requires Distinct(s)
    ensures forall x :: multiset(s)[x] == if x in s then 1 else 0
    decreases |s|
  {
    if |s| > 0 {
      var init := s[..|s| - 1];
      DistinctCounts(init);
      assert s == init + [s[|s| - 1]];
      assert s[|s| - 1] !in init;
    }
  }

  /** A listing has as many entries as the set has elements. */
  lemma {:induction false} ListsSize(order: seq<string>, keys: set<string>)
    requires Lists(order, keys)
    ensures |order| == |keys|
    decreases |order|
  {
    if |order| > 0 {
      var init := order[..|order| - 1];
      var last := order[|order| - 1];
      assert last !in init;
      assert forall k :: k in init ==> k in order;
      ListsSize(init, keys - {last});
    }
  }
}
