/** The older class page, liff/app/class/page.tsx (classAndPersonalAverage): every user's
    best TotalGrade per day, the class value of a day the mean of those bests over the users
    who worked that day, and next to it the viewer's own best, sorted by date. Grades are
    JavaScript numbers, kept here as exact reals; toFixed(2) rounding is not modelled. */
module ClassPage {
  import opened Wrappers
  import S = Stats
  import D = DateOrder

  // ---------------------------------------------------------------------------------------
  // The per-user daily maximum (the two forEach loops over a portfolio's keys)

  /** key.slice(0, 10): the "YYYY-MM-DD" day of a work key. */
  function DayOf(key: string): (d: string)
    ensures |d| == (if |key| <= 10 then |key| else 10) && d == key[..|d|]
  {
    if |key| <= 10 then key else key[..10]
  }

  /** Math.max on two numbers (NaN is not modelled). */
  function Max(a: real, b: real): (m: real)
    ensures m >= a && m >= b && (m == a || m == b)
  {
    if a >= b then a else b
  }

  /** The map the forEach over `keys` leaves behind: each visit sets
      m[day] := Math.max(m[day] || 0, grade). */
  function DailyMaxOf(p: map<string, real>, keys: seq<string>): map<string, real>
    requires forall k :: k in keys ==> k in p
  {
    if keys == [] then map[]
    else
      var m := DailyMaxOf(p, keys[..|keys| - 1]);
      var k := keys[|keys| - 1];
      var d := DayOf(k);
      m[d := Max(if d in m then m[d] else 0.0, p[k])]
  }

  /** What the value kept for day `d` means: never below 0 (the `|| 0` start), at least every
      grade of that day, and either 0 or one of those grades. */
  predicate IsDailyMax(p: map<string, real>, keys: seq<string>, d: string, v: real)
    requires forall k :: k in keys ==> k in p
  {
    v >= 0.0
    && (forall k :: k in keys && DayOf(k) == d ==> p[k] <= v)
    && (v == 0.0 || exists k :: k in keys && DayOf(k) == d && p[k] == v)
  }

  /** A day gets a value exactly when some key falls on it, and that value is the day's
      maximum floored at 0. */
  lemma {:induction false} DailyMaxSpec(p: map<string, real>, keys: seq<string>, d: string)
    requires forall k :: k in keys ==> k in p
    ensures d in DailyMaxOf(p, keys) <==> exists k :: k in keys && DayOf(k) == d
    ensures d in DailyMaxOf(p, keys) ==> IsDailyMax(p, keys, d, DailyMaxOf(p, keys)[d])
    decreases |keys|
  {
    if keys != [] {
      var init := keys[..|keys| - 1];
      var k := keys[|keys| - 1];
      assert keys == init + [k];
      assert forall j :: j in keys <==> j in init || j == k;
      DailyMaxSpec(p, init, d);
    }
  }

  /** With non-negative grades (as the pose server gives them) the value is the day's best grade. */
  lemma DailyMaxIsBest(p: map<string, real>, keys: seq<string>, d: string)
    requires forall k :: k in keys ==> k in p
    requires forall k :: k in p ==> p[k] >= 0.0
    requires d in DailyMaxOf(p, keys)
    ensures exists k :: k in keys && DayOf(k) == d && p[k] == DailyMaxOf(p, keys)[d]
    ensures forall k :: k in keys && DayOf(k) == d ==> p[k] <= DailyMaxOf(p, keys)[d]
  {
    DailyMaxSpec(p, keys, d);
    var v := DailyMaxOf(p, keys)[d];
    if v == 0.0 {
      var k :| k in keys && DayOf(k) == d;
      assert p[k] == v;
    }
  }

  /** Two values that both mean the day's maximum over the same keys are equal. */
  lemma DailyMaxUnique(p: map<string, real>, k1: seq<string>, k2: seq<string>, d: string, v1: real, v2: real)
    requires forall k :: k in k1 ==> k in p
    requires forall k :: k in k1 <==> k in k2
    requires IsDailyMax(p, k1, d, v1) && IsDailyMax(p, k2, d, v2)
    ensures v1 == v2
  {
    if v1 != 0.0 {
      var k :| k in k1 && DayOf(k) == d && p[k] == v1;
      assert k in k2;
    }
    if v2 != 0.0 {
      var k :| k in k2 && DayOf(k) == d && p[k] == v2;
      assert k in k1;
    }
  }

  /** The Object.keys order of a portfolio does not change its daily maxima. */
  lemma DailyMaxOrderIndependent(p: map<string, real>, k1: seq<string>, k2: seq<string>)
    requires D.Lists(k1, p.Keys) && D.Lists(k2, p.Keys)
    ensures DailyMaxOf(p, k1) == DailyMaxOf(p, k2)
  {
    var m1, m2 := DailyMaxOf(p, k1), DailyMaxOf(p, k2);
    forall d ensures d in m1 <==> d in m2 {
      DailyMaxSpec(p, k1, d);
      DailyMaxSpec(p, k2, d);
    }
    forall d | d in m1 ensures m1[d] == m2[d] {
      DailyMaxSpec(p, k1, d);
      DailyMaxSpec(p, k2, d);
      DailyMaxUnique(p, k1, k2, d, m1[d], m2[d]);
    }
    S.MapsEqual(m1, m2);
  }

  /** The forEach computing personalMax or userMaxGrades. */
  method DailyMax(p: map<string, real>, keys: seq<string>) returns (m: map<string, real>)
    requires forall k :: k in keys ==> k in p
    ensures m == DailyMaxOf(p, keys)
  {
    m := map[];
    var i := 0;
    while i < |keys|
      invariant 0 <= i <= |keys|
      invariant m == DailyMaxOf(p, keys[..i])
    {
      var key := keys[i];
      var date := if |key| <= 10 then key else key[..10];
      var prev := if date in m then m[date] else 0.0;
      m := m[date := if prev >= p[key] then prev else p[key]];
      assert keys[..i + 1][..i] == keys[..i];
      i := i + 1;
    }
    assert keys[..|keys|] == keys;
  }

  // ---------------------------------------------------------------------------------------
  // The class accumulator (the reduce over Object.values(classData))

  /** acc[date]: the sum of the users' bests on that day and how many users they came from. */
  datatype Tally = Tally(total: real, count: nat)

  /** A portfolio per user, with the Object.keys order of each. */
  predicate Orders(ps: seq<map<string, real>>, korders: seq<seq<string>>) {
    |korders| == |ps| && forall i :: 0 <= i < |ps| ==> D.Lists(korders[i], ps[i].Keys)
  }

  /** userMaxGrades of every user, in Object.values order. */
  function Maxima(ps: seq<map<string, real>>, korders: seq<seq<string>>): (ums: seq<map<string, real>>)
    requires Orders(ps, korders)
    ensures |ums| == |ps|
  {
    seq(|ps|, i requires 0 <= i < |ps| && Orders(ps, korders) => DailyMaxOf(ps[i], korders[i]))
  }

  /** The tally of `d` after one user's bests are added: `acc[date] ??= {0, 0}`, then the
      best is added to the total and the count goes up by one. */
  function Plus(acc: map<string, Tally>, um: map<string, real>, d: string): Tally {
    var t := if d in acc then acc[d] else Tally(0.0, 0);
    if d in um then Tally(t.total + um[d], t.count + 1) else t
  }

  /** acc after the inner forEach over Object.entries(userMaxGrades). */
  function AddMaxima(acc: map<string, Tally>, um: map<string, real>): map<string, Tally> {
    map d | d in acc.Keys + um.Keys :: Plus(acc, um, d)
  }

  /** acc once the reduce has seen the users `ums`. */
  function AccOf(ums: seq<map<string, real>>): map<string, Tally> {
    if ums == [] then map[] else AddMaxima(AccOf(ums[..|ums| - 1]), ums[|ums| - 1])
  }

  /** How many of the users have a best on `d`. */
  function Count(ums: seq<map<string, real>>, d: string): nat {
    if ums == [] then 0
    else Count(ums[..|ums| - 1], d) + (if d in ums[|ums| - 1] then 1 else 0)
  }

  /** The sum of the users' bests on `d`. */
  function Total(ums: seq<map<string, real>>, d: string): real {
    if ums == [] then 0.0
    else Total(ums[..|ums| - 1], d) + (if d in ums[|ums| - 1] then ums[|ums| - 1][d] else 0.0)
  }

  /** Some user has a best on `d` exactly when the count is positive, and never more users
      than there are. */
  lemma {:induction false} CountSpec(ums: seq<map<string, real>>, d: string)
    ensures Count(ums, d) > 0 <==> exists i :: 0 <= i < |ums| && d in ums[i]
    ensures Count(ums, d) <= |ums|
    ensures Count(ums, d) == 0 ==> Total(ums, d) == 0.0
    decreases |ums|
  {
    if ums != [] {
      var init := ums[..|ums| - 1];
      CountSpec(init, d);
      assert forall i :: 0 <= i < |init| ==> init[i] == ums[i];
    }
  }

  /** The accumulator holds a day exactly when some user worked on it, and its entry is the
      total and the count of the users' bests on that day. */
  lemma {:induction false} AccSpec(ums: seq<map<string, real>>, d: string)
    ensures d in AccOf(ums) <==> Count(ums, d) > 0
    ensures d in AccOf(ums) ==> AccOf(ums)[d] == Tally(Total(ums, d), Count(ums, d))
    decreases |ums|
  {
    if ums != [] {
      var init, last := ums[..|ums| - 1], ums[|ums| - 1];
      AccSpec(init, d);
      CountSpec(init, d);
      var a := AccOf(init);
      assert AccOf(ums) == AddMaxima(a, last);
      assert d in AccOf(ums) <==> d in a || d in last;
      if d in AccOf(ums) {
        assert AccOf(ums)[d] == Plus(a, last, d);
      }
    }
  }

  /** Every tally has a positive count, so the division by it is defined. */
  predicate Counted(acc: map<string, Tally>) {
    forall d :: d in acc ==> acc[d].count > 0
  }

  lemma AccCounted(ums: seq<map<string, real>>)
    ensures Counted(AccOf(ums))
  {
    forall d | d in AccOf(ums) ensures AccOf(ums)[d].count > 0 {
      AccSpec(ums, d);
    }
  }

  /** The inner forEach, over the user's days in any order. */
  method AddUserMaxima(acc: map<string, Tally>, um: map<string, real>) returns (r: map<string, Tally>)
    ensures r == AddMaxima(acc, um)
  {
    r := acc;
    var todo := um.Keys;
    while todo != {}
      invariant Partly(acc, um, todo, r)
      decreases |todo|
    {
      var date :| date in todo;
      var t := if date in r then r[date] else Tally(0.0, 0);
      var r' := r[date := Tally(t.total + um[date], t.count + 1)];
      AddStep(acc, um, todo, r, date, r');
      r, todo := r', todo - {date};
    }
    AddDone(acc, um, r);
  }

  /** `r` is `acc` with the days of `um` outside `todo` already added. */
  predicate Partly(acc: map<string, Tally>, um: map<string, real>, todo: set<string>, r: map<string, Tally>) {
    todo <= um.Keys
    && r.Keys == acc.Keys + (um.Keys - todo)
    && forall d :: d in r ==> r[d] == if d in todo then acc[d] else Plus(acc, um, d)
  }

  lemma AddDone(acc: map<string, Tally>, um: map<string, real>, r: map<string, Tally>)
    requires Partly(acc, um, {}, r)
    ensures r == AddMaxima(acc, um)
  {
    S.MapsEqual(r, AddMaxima(acc, um));
  }

  lemma AddStep(acc: map<string, Tally>, um: map<string, real>, todo: set<string>, r: map<string, Tally>,
                date: string, r': map<string, Tally>)
    requires Partly(acc, um, todo, r) && date in todo
    requires var t := if date in r then r[date] else Tally(0.0, 0);
             r' == r[date := Tally(t.total + um[date], t.count + 1)]
    ensures Partly(acc, um, todo - {date}, r')
  {
    assert date in um;
    assert date in r ==> date in acc;
  }

  /** The reduce: one pass over the users, each adding their daily bests. */
  method Accumulate(ps: seq<map<string, real>>, korders: seq<seq<string>>) returns (acc: map<string, Tally>)
    requires Orders(ps, korders)
    ensures acc == AccOf(Maxima(ps, korders))
  {
    acc := map[];
    var i := 0;
    while i < |ps|
      invariant 0 <= i <= |ps|
      invariant acc == AccOf(Maxima(ps, korders)[..i])
    {
      var um := DailyMax(ps[i], korders[i]);
      acc := AddUserMaxima(acc, um);
      assert Maxima(ps, korders)[..i + 1][..i] == Maxima(ps, korders)[..i];
      i := i + 1;
    }
    assert Maxima(ps, korders)[..|ps|] == Maxima(ps, korders);
  }

  // ---------------------------------------------------------------------------------------
  // The rows

  /** One point of the chart: the class mean and the viewer's best on a day. */
  datatype Row = Row(date: string, classAvg: real, personalMax: real)

  /** Every class day has a personal best. */
  predicate Covers(pm: map<string, real>, acc: map<string, Tally>) {
    forall d :: d in acc ==> d in pm
  }

  /** The map over the days `dates`. */
  function RowsOf(acc: map<string, Tally>, pm: map<string, real>, dates: seq<string>): (rows: seq<Row>)
    requires Counted(acc) && forall i :: 0 <= i < |dates| ==> dates[i] in acc && dates[i] in pm
    ensures |rows| == |dates|
  {
    seq(|dates|, i requires 0 <= i < |dates| && dates[i] in acc && dates[i] in pm =>
      Row(dates[i], acc[dates[i]].total / (acc[dates[i]].count as real), pm[dates[i]]))
  }

  /** The map over Object.entries(acc) and the sort by date. The viewer's best is read for
      every class day; where the viewer has none, toFixed is called on undefined and throws. */
  function Rows(acc: map<string, Tally>, pm: map<string, real>, order: seq<string>): Result<seq<Row>, string>
    requires D.Lists(order, acc.Keys) && Counted(acc)
  {
    if !Covers(pm, acc) then Err("TypeError")
    else
      SortedIn(order, acc.Keys);
      Ok(RowsOf(acc, pm, D.Sort(order)))
  }

  /** Row i is built for the i-th day given, from that day's tally and personal best. */
  lemma RowsOfSpec(acc: map<string, Tally>, pm: map<string, real>, dates: seq<string>)
    requires Counted(acc) && forall i :: 0 <= i < |dates| ==> dates[i] in acc && dates[i] in pm
    ensures var rows := RowsOf(acc, pm, dates);
            forall i :: 0 <= i < |rows| ==>
              rows[i].date == dates[i]
              && rows[i].classAvg == acc[dates[i]].total / (acc[dates[i]].count as real)
              && rows[i].personalMax == pm[dates[i]]
  {
  }

  /** Sorting a listing keeps it a listing of the same set. */
  lemma SortedIn(order: seq<string>, keys: set<string>)
    requires D.Lists(order, keys)
    ensures |D.Sort(order)| == |order|
    ensures forall i :: 0 <= i < |D.Sort(order)| ==> D.Sort(order)[i] in keys
    ensures forall d :: d in keys ==> d in D.Sort(order)
  {
    var s := D.Sort(order);
    assert |s| == |multiset(s)| == |multiset(order)| == |order|;
    forall i | 0 <= i < |s| ensures s[i] in keys {
      assert s[i] in multiset(order);
    }
    forall d | d in keys ensures d in s {
      assert d in multiset(s);
    }
  }

  /** The rows fail exactly when some class day has no personal best; otherwise there is one
      row per class day, in increasing date order. */
  lemma RowsDates(acc: map<string, Tally>, pm: map<string, real>, order: seq<string>)
    requires D.Lists(order, acc.Keys) && Counted(acc)
    ensures Rows(acc, pm, order).Err? <==> exists d :: d in acc && d !in pm
    ensures Rows(acc, pm, order).Ok? ==>
              var rows := Rows(acc, pm, order).value;
              |rows| == |acc|
              && (forall i, j :: 0 <= i < j < |rows| ==> D.Less(rows[i].date, rows[j].date))
              && (forall i :: 0 <= i < |rows| ==> rows[i].date in acc)
              && (forall d :: d in acc ==> exists i :: 0 <= i < |rows| && rows[i].date == d)
  {
    if Covers(pm, acc) {
      var s := D.Sort(order);
      SortedIn(order, acc.Keys);
      D.ListsSize(order, acc.Keys);
      RowsOfDates(acc, pm, s);
      assert Rows(acc, pm, order) == Ok(RowsOf(acc, pm, s));
    }
  }

  /** The rows follow the days given: as many, in the same order, and every day has one. */
  lemma RowsOfDates(acc: map<string, Tally>, pm: map<string, real>, dates: seq<string>)
    requires Counted(acc) && forall i :: 0 <= i < |dates| ==> dates[i] in acc && dates[i] in pm
    ensures var rows := RowsOf(acc, pm, dates);
            (D.Ascending(dates) ==> forall i, j :: 0 <= i < j < |rows| ==> D.Less(rows[i].date, rows[j].date))
            && (forall i :: 0 <= i < |rows| ==> rows[i].date in acc)
            && (forall d :: d in dates ==> exists i :: 0 <= i < |rows| && rows[i].date == d)
  {
    var rows := RowsOf(acc, pm, dates);
    RowsOfSpec(acc, pm, dates);
    forall d | d in dates ensures exists i :: 0 <= i < |rows| && rows[i].date == d {
      var i :| 0 <= i < |dates| && dates[i] == d;
      assert rows[i].date == d;
    }
  }

  /** Each row holds total/count of its day and the viewer's best of that day. */
  lemma RowsValues(acc: map<string, Tally>, pm: map<string, real>, order: seq<string>)
    requires D.Lists(order, acc.Keys) && Counted(acc)
    ensures Rows(acc, pm, order).Ok? ==>
              var rows := Rows(acc, pm, order).value;
              forall i :: 0 <= i < |rows| ==>
                rows[i].date in acc && rows[i].date in pm
                && rows[i].classAvg == acc[rows[i].date].total / (acc[rows[i].date].count as real)
                && rows[i].personalMax == pm[rows[i].date]
  {
    if Covers(pm, acc) {
      var s := D.Sort(order);
      SortedIn(order, acc.Keys);
      RowsOfSpec(acc, pm, s);
    }
  }

  /** Neither the Object.entries order of the accumulator changes the rows. */
  lemma RowsOrderIndependent(acc: map<string, Tally>, pm: map<string, real>, o1: seq<string>, o2: seq<string>)
    requires D.Lists(o1, acc.Keys) && D.Lists(o2, acc.Keys) && Counted(acc)
    ensures Rows(acc, pm, o1) == Rows(acc, pm, o2)
  {
    D.ListingsAgree(o1, o2, acc.Keys);
    D.SortOrderIndependent(o1, o2);
  }

  /** An Object.entries order of a set of keys. */
  method Listing(keys: set<string>) returns (order: seq<string>)
    ensures D.Lists(order, keys)
  {
    order := [];
    var todo := keys;
    while todo != {}
      invariant todo <= keys
      invariant D.Distinct(order)
      invariant forall k :: k in order ==> k in keys && k !in todo
      invariant forall k :: k in keys ==> k in order || k in todo
      decreases |todo|
    {
      var k :| k in todo;
      order := order + [k];
      todo := todo - {k};
    }
  }

  /** classAndPersonalAverage. `personal` and `pkeys` are the viewer's portfolio and its
      Object.keys order; `ps` and `korders` the class's portfolios in Object.values order.
      `order` is the Object.entries order of the accumulator, which RowsOrderIndependent
      shows does not matter. */
  method ClassAndPersonalAverage(personal: map<string, real>, pkeys: seq<string>,
                                 ps: seq<map<string, real>>, korders: seq<seq<string>>)
    returns (r: Result<seq<Row>, string>, order: seq<string>)
    requires D.Lists(pkeys, personal.Keys) && Orders(ps, korders)
    ensures D.Lists(order, AccOf(Maxima(ps, korders)).Keys) && Counted(AccOf(Maxima(ps, korders)))
    ensures r == Rows(AccOf(Maxima(ps, korders)), DailyMaxOf(personal, pkeys), order)
  {
    var personalMax := DailyMax(personal, pkeys);
    var acc := Accumulate(ps, korders);
    order := Listing(acc.Keys);
    AccCounted(Maxima(ps, korders));
    r := Rows(acc, personalMax, order);
  }

  /** What a row means in terms of the users: its class value is the mean of the bests of
      the users who worked that day (at least one did), and its personal value the viewer's
      best of that day. */
  lemma RowMeaning(personal: map<string, real>, pkeys: seq<string>,
                   ps: seq<map<string, real>>, korders: seq<seq<string>>, order: seq<string>, i: nat)
    requires D.Lists(pkeys, personal.Keys) && Orders(ps, korders)
    requires D.Lists(order, AccOf(Maxima(ps, korders)).Keys) && Counted(AccOf(Maxima(ps, korders)))
    requires Rows(AccOf(Maxima(ps, korders)), DailyMaxOf(personal, pkeys), order).Ok?
    requires i < |Rows(AccOf(Maxima(ps, korders)), DailyMaxOf(personal, pkeys), order).value|
    ensures var row := Rows(AccOf(Maxima(ps, korders)), DailyMaxOf(personal, pkeys), order).value[i];
            var ums := Maxima(ps, korders);
            (exists u :: 0 <= u < |ums| && row.date in ums[u])
            && Count(ums, row.date) > 0
            && row.classAvg == Total(ums, row.date) / (Count(ums, row.date) as real)
            && IsDailyMax(personal, pkeys, row.date, row.personalMax)
  {
    var ums := Maxima(ps, korders);
    var acc := AccOf(ums);
    var pm := DailyMaxOf(personal, pkeys);
    RowsValues(acc, pm, order);
    var row := Rows(acc, pm, order).value[i];
    AccSpec(ums, row.date);
    CountSpec(ums, row.date);
    DailyMaxSpec(personal, pkeys, row.date);
  }
}
