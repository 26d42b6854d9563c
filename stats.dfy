/** The grade statistics of linebot/api/db/stats.go: works are bucketed by the day of their
    "2006-01-02-15-04" key, and each day's TotalGrades are reduced to mean, extremes and
    spread. Grades are reals, so sums are exact; the returned record holds the population
    variance where the source holds its square root. Go ranges over a map in an unspecified
    order; the model takes that order as a parameter and proves the result does not depend
    on it. */
module Stats {
  import opened Wrappers
  import TK = TimeKeys
  import U = Users

  /** computeStats's result, with the variance in place of Std = sqrt(variance). */
  datatype Stats = Stats(avg: real, max: real, min: real, variance: real)

  /** One work seen by a bucketing loop: its portfolio key, the key's "2006-01-02" day (None
      when the key does not parse) and its TotalGrade. */
  datatype Entry = Entry(key: string, day: Option<string>, grade: real)

  const NoValuesError := "no values to compute stats"
  const ParseError := "failed to parse the work's key as a date string"
  const SkillError := "invalid or empty skill portfolio"

  // ---------------------------------------------------------------------------------------
  // Reductions over a list of grades

  /** What one step of a summing loop adds for `x`. */
  datatype Measure = Identity | SquaredDeviation(from: real)

  function Apply(m: Measure, x: real): real {
    match m
    case Identity => x
    case SquaredDeviation(c) => (x - c) * (x - c)
  }

  /** The sum of Apply(m, x) over s, accumulated left to right as the loops do. */
  function SumOf(s: seq<real>, m: Measure): real
    decreases |s|
  {
    if |s| == 0 then 0.0 else SumOf(s[..|s| - 1], m) + Apply(m, s[|s| - 1])
  }

  /** The running minimum the loop keeps: replaced only by a strictly smaller value. */
  function MinOf(s: seq<real>): real
    requires |s| > 0
    decreases |s|
  {
    if |s| == 1 then s[0]
    else
      var m := MinOf(s[..|s| - 1]);
      if s[|s| - 1] < m then s[|s| - 1] else m
  }

  function MaxOf(s: seq<real>): real
    requires |s| > 0
    decreases |s|
  {
    if |s| == 1 then s[0]
    else
      var m := MaxOf(s[..|s| - 1]);
      if s[|s| - 1] > m then s[|s| - 1] else m
  }

  /** The running extremes are grades of the list, and every grade lies between them. */
  lemma {:induction false} ExtremesSpec(s: seq<real>)
    requires |s| > 0
    ensures MinOf(s) in s && MaxOf(s) in s
    ensures forall i :: 0 <= i < |s| ==> MinOf(s) <= s[i] <= MaxOf(s)
    decreases |s|
  {
    if |s| > 1 {
      var init := s[..|s| - 1];
      ExtremesSpec(init);
      assert s == init + [s[|s| - 1]];
      assert forall i :: 0 <= i < |s| - 1 ==> init[i] == s[i];
    }
  }

  /** What computeStats returns for a non-empty list. */
  function StatsOf(values: seq<real>): Stats
    requires |values| > 0
  {
    var n := |values| as real;
    var avg := SumOf(values, Identity) / n;
    Stats(avg, MaxOf(values), MinOf(values), SumOf(values, SquaredDeviation(avg)) / n)
  }

  /** The mean lies between the extremes, and both extremes are grades of the list that bound
      all of them. */
  lemma StatsOfSpec(values: seq<real>)
    requires |values| > 0
    ensures StatsOf(values).min in values && StatsOf(values).max in values
    ensures forall i :: 0 <= i < |values| ==> StatsOf(values).min <= values[i] <= StatsOf(values).max
    ensures StatsOf(values).avg == SumOf(values, Identity) / (|values| as real)
    ensures StatsOf(values).min <= StatsOf(values).avg <= StatsOf(values).max
  {
    ExtremesSpec(values);
    MeanBetween(values, MinOf(values), MaxOf(values));
  }

  /** The mean of grades that all lie in [lo, hi] lies there too. */
  lemma MeanBetween(s: seq<real>, lo: real, hi: real)
    requires |s| > 0 && forall i :: 0 <= i < |s| ==> lo <= s[i] <= hi
    ensures lo <= SumOf(s, Identity) / (|s| as real) <= hi
  {
    SumBounds(s, lo, hi);
    MeanBounds(SumOf(s, Identity), |s| as real, lo, hi);
  }

  /** The variance is the mean squared deviation from the mean, so it is never negative. */
  lemma VarianceSpec(values: seq<real>)
    requires |values| > 0
    ensures StatsOf(values).variance == SumOf(values, SquaredDeviation(StatsOf(values).avg)) / (|values| as real)
    ensures StatsOf(values).variance >= 0.0
  {
    var n := |values| as real;
    var sum := SumOf(values, Identity);
    SumNonNegative(values, sum / n);
    NonNegativeMean(SumOf(values, SquaredDeviation(sum / n)), n);
  }

  lemma MeanBounds(sum: real, n: real, lo: real, hi: real)
    requires n > 0.0 && n * lo <= sum <= n * hi
    ensures lo <= sum / n <= hi
  {
    assert (sum / n) * n == sum;
  }

  lemma NonNegativeMean(sum: real, n: real)
    requires n > 0.0 && sum >= 0.0
    ensures sum / n >= 0.0
  {
  }

  /** n * lo <= sum <= n * hi when every grade lies in [lo, hi]. */
  lemma {:induction false} SumBounds(s: seq<real>, lo: real, hi: real)
    requires forall i :: 0 <= i < |s| ==> lo <= s[i] <= hi
    ensures (|s| as real) * lo <= SumOf(s, Identity) <= (|s| as real) * hi
    decreases |s|
  {
    if |s| > 0 {
      var init := s[..|s| - 1];
      assert forall i :: 0 <= i < |init| ==> init[i] == s[i];
      SumBounds(init, lo, hi);
      assert (|s| as real) * lo == (|init| as real) * lo + lo;
      assert (|s| as real) * hi == (|init| as real) * hi + hi;
    }
  }

  lemma {:induction false} SumNonNegative(s: seq<real>, c: real)
    ensures SumOf(s, SquaredDeviation(c)) >= 0.0
    decreases |s|
  {
    if |s| > 0 {
      SumNonNegative(s[..|s| - 1], c);
      var d := s[|s| - 1] - c;
      assert d * d >= 0.0;
    }
  }

  /** computeStats: an empty list is an error; otherwise two passes, the first for the
      extremes and the sum, the second for the squared deviations from the mean. */
  method ComputeStats(values: seq<real>) returns (r: Result<Stats, string>)
    ensures r.Err? <==> |values| == 0
    ensures r.Ok? ==> r.value == StatsOf(values)
  {
    if |values| == 0 {
      return Err(NoValuesError);
    }
    var n := |values| as real;
    var min, max, sum := values[0], values[0], 0.0;
    var i := 0;
    while i < |values|
      invariant 0 <= i <= |values|
      invariant min == if i == 0 then values[0] else MinOf(values[..i])
      invariant max == if i == 0 then values[0] else MaxOf(values[..i])
      invariant sum == SumOf(values[..i], Identity)
    {
      var v := values[i];
      assert values[..i + 1][..i] == values[..i];
      if v < min {
        min := v;
      }
      if v > max {
        max := v;
      }
      sum := sum + v;
      i := i + 1;
    }
    assert values[..i] == values;
    var avg := sum / n;
    var varSum := SquaredDeviations(values, avg);
    r := Ok(Stats(avg, max, min, varSum / n));
  }

  /** computeStats's second pass: the sum of squared deviations from `avg`. */
  method SquaredDeviations(values: seq<real>, avg: real) returns (varSum: real)
    ensures varSum == SumOf(values, SquaredDeviation(avg))
  {
    varSum := 0.0;
    var i := 0;
    while i < |values|
      invariant 0 <= i <= |values|
      invariant varSum == SumOf(values[..i], SquaredDeviation(avg))
    {
      assert values[..i + 1][..i] == values[..i];
      var d := values[i] - avg;
      varSum := varSum + d * d;
      i := i + 1;
    }
    assert values[..i] == values;
  }

  /** computeDateStats: statistics for every date, or an error as soon as one date's list
      is empty. */
  method ComputeDateStats(dateValues: map<string, seq<real>>) returns (r: Result<map<string, Stats>, string>)
    ensures r.Ok? <==> forall d :: d in dateValues ==> |dateValues[d]| > 0
    ensures r.Ok? ==> r.value.Keys == dateValues.Keys
    ensures r.Ok? ==> forall d :: d in r.value ==> |dateValues[d]| > 0 && r.value[d] == StatsOf(dateValues[d])
  {
    var dateStats: map<string, Stats> := map[];
    var pending := dateValues.Keys;
    while pending != {}
      invariant pending <= dateValues.Keys
      invariant dateStats.Keys == dateValues.Keys - pending
      invariant forall d :: d in dateStats ==> |dateValues[d]| > 0 && dateStats[d] == StatsOf(dateValues[d])
      decreases |pending|
    {
      var date :| date in pending;
      var stats := ComputeStats(dateValues[date]);
      if stats.Err? {
        return Err("Stats on " + date + " cannot be calculated");
      }
      dateStats := dateStats[date := stats.value];
      pending := pending - {date};
    }
    r := Ok(dateStats);
  }

  // ---------------------------------------------------------------------------------------
  // Bucketing by day

  predicate AllParse(es: seq<Entry>) {
    forall i :: 0 <= i < |es| ==> es[i].day.Some?
  }

  /** `g` after the bucketing loop has appended every grade of `es`, in order, to its day. */
  function Extend(g: map<string, seq<real>>, es: seq<Entry>): map<string, seq<real>>
    requires AllParse(es)
    decreases |es|
  {
    if |es| == 0 then g
    else
      var h := Extend(g, es[..|es| - 1]);
      var d := es[|es| - 1].day.value;
      h[d := (if d in h then h[d] else []) + [es[|es| - 1].grade]]
  }

  function Group(es: seq<Entry>): map<string, seq<real>>
    requires AllParse(es)
  {
    Extend(map[], es)
  }

  /** Reference definition of a day's bucket: the grades of the entries on that day, in order. */
  function GradesOn(es: seq<Entry>, d: string): seq<real>
    decreases |es|
  {
    if |es| == 0 then []
    else GradesOn(es[..|es| - 1], d)
         + (if es[|es| - 1].day == Some(d) then [es[|es| - 1].grade] else [])
  }

  /** A day has a bucket exactly when some entry falls on it, and the bucket holds that day's
      grades in entry order; so no bucket is empty. */
  lemma {:induction false} GroupIsGradesOn(es: seq<Entry>, d: string)
    requires AllParse(es)
    ensures d in Group(es) <==> exists i :: 0 <= i < |es| && es[i].day == Some(d)
    ensures d in Group(es) ==> Group(es)[d] == GradesOn(es, d) && |Group(es)[d]| > 0
    ensures d in Group(es) <==> |GradesOn(es, d)| > 0
    decreases |es|
  {
    if |es| > 0 {
      var init := es[..|es| - 1];
      assert AllParse(init);
      GroupIsGradesOn(init, d);
      if d in Group(es) && d !in Group(init) {
        assert GradesOn(init, d) == [] by {
          NoEntryNoGrades(init, d);
        }
      }
      if exists i :: 0 <= i < |init| && init[i].day == Some(d) {
        var i :| 0 <= i < |init| && init[i].day == Some(d);
        assert es[i] == init[i];
      }
      if exists i :: 0 <= i < |es| && es[i].day == Some(d) {
        var i :| 0 <= i < |es| && es[i].day == Some(d);
        if i < |init| {
          assert init[i] == es[i];
        }
      }
    }
    if d !in Group(es) {
      NoEntryNoGrades(es, d);
    }
  }

  lemma {:induction false} NoEntryNoGrades(es: seq<Entry>, d: string)
    requires forall i :: 0 <= i < |es| ==> es[i].day != Some(d)
    ensures GradesOn(es, d) == []
    decreases |es|
  {
    if |es| > 0 {
      NoEntryNoGrades(es[..|es| - 1], d);
    }
  }

  lemma {:induction false} ExtendConcat(g: map<string, seq<real>>, a: seq<Entry>, b: seq<Entry>)
    requires AllParse(a) && AllParse(b)
    ensures AllParse(a + b)
    ensures Extend(g, a + b) == Extend(Extend(g, a), b)
    decreases |b|
  {
    assert AllParse(a + b) by {
      forall i | 0 <= i < |a + b|
        ensures (a + b)[i].day.Some?
      {
        if i >= |a| {
          assert (a + b)[i] == b[i - |a|];
        }
      }
    }
    if |b| == 0 {
      assert a + b == a;
    } else {
      var b' := b[..|b| - 1];
      assert AllParse(b');
      assert (a + b)[..|a + b| - 1] == a + b';
      ExtendConcat(g, a, b');
    }
  }

  /** The statistics both GetUserSkillStats and GetClassSkillStats return for the works they
      bucket: an error naming the date layout if any key does not parse, otherwise one
      record per day that has works. */
  function StatsByDate(es: seq<Entry>): Result<map<string, Stats>, string>
  {
    if !AllParse(es) then Err(ParseError)
    else
      var g := Group(es);
      assert forall d :: d in g ==> g[d] == GradesOn(es, d) && |g[d]| > 0 by {
        forall d | d in g
          ensures g[d] == GradesOn(es, d) && |g[d]| > 0
        {
          GroupIsGradesOn(es, d);
        }
      }
      Ok(StatsMap(g))
  }

  /** One record per bucket. */
  function StatsMap(g: map<string, seq<real>>): map<string, Stats>
    requires forall d :: d in g ==> |g[d]| > 0
  {
    map d | d in g :: StatsOf(g[d])
  }

  /** Any unparseable key makes the whole result an error; otherwise a day has statistics
      exactly when some work falls on it, and they are the statistics of that day's grades. */
  lemma StatsByDateSpec(es: seq<Entry>, d: string)
    ensures StatsByDate(es).Err? <==> !AllParse(es)
    ensures StatsByDate(es).Ok? ==>
              (d in StatsByDate(es).value <==> exists i :: 0 <= i < |es| && es[i].day == Some(d))
    ensures StatsByDate(es).Ok? && d in StatsByDate(es).value ==>
              |GradesOn(es, d)| > 0 && StatsByDate(es).value[d] == StatsOf(GradesOn(es, d))
  {
    if AllParse(es) {
      GroupIsGradesOn(es, d);
    }
  }

  /** An empty portfolio yields empty statistics and no error. */
  lemma NoWorksNoStats()
    ensures StatsByDate([]) == Ok(map[])
  {
    assert Group([]) == map[];
  }

  // ---------------------------------------------------------------------------------------
  // Independence from the order Go visits the map in

  lemma {:induction false} SumConcat(a: seq<real>, b: seq<real>, m: Measure)
    ensures SumOf(a + b, m) == SumOf(a, m) + SumOf(b, m)
    decreases |b|
  {
    if |b| == 0 {
      assert a + b == a;
    } else {
      assert (a + b)[..|a + b| - 1] == a + b[..|b| - 1];
      SumConcat(a, b[..|b| - 1], m);
    }
  }

  lemma {:induction false} GradesOnConcat(a: seq<Entry>, b: seq<Entry>, d: string)
    ensures GradesOn(a + b, d) == GradesOn(a, d) + GradesOn(b, d)
    decreases |b|
  {
    if |b| == 0 {
      assert a + b == a;
    } else {
      assert (a + b)[..|a + b| - 1] == a + b[..|b| - 1];
      GradesOnConcat(a, b[..|b| - 1], d);
    }
  }

  /** Where the last element of `a` sits in a permutation `b` of it. */
  lemma PermSplit<X>(a: seq<X>, b: seq<X>) returns (j: int)
    requires multiset(a) == multiset(b) && |a| > 0
    ensures 0 <= j < |b| && b[j] == a[|a| - 1]
    ensures b == b[..j] + [b[j]] + b[j + 1..]
    ensures multiset(a[..|a| - 1]) == multiset(b[..j] + b[j + 1..])
  {
    var x := a[|a| - 1];
    assert a == a[..|a| - 1] + [x];
    assert multiset(a) == multiset(a[..|a| - 1]) + multiset{x};
    assert x in multiset(b);
    j :| 0 <= j < |b| && b[j] == x;
    assert b == b[..j] + [b[j]] + b[j + 1..];
    var rest := b[..j] + b[j + 1..];
    assert multiset(b) == multiset(b[..j]) + multiset{x} + multiset(b[j + 1..]);
    assert multiset(rest) == multiset(b[..j]) + multiset(b[j + 1..]);
    assert multiset(rest) == multiset(b) - multiset{x};
    assert multiset(a[..|a| - 1]) == multiset(a) - multiset{x};
  }

  lemma {:induction false} SumPerm(a: seq<real>, b: seq<real>, m: Measure)
    requires multiset(a) == multiset(b)
    ensures SumOf(a, m) == SumOf(b, m)
    decreases |a|
  {
    if |a| == 0 {
      assert |b| == |multiset(b)| == 0;
    } else {
      var j := PermSplit(a, b);
      var rest := b[..j] + b[j + 1..];
      SumPerm(a[..|a| - 1], rest, m);
      SumConcat(b[..j] + [b[j]], b[j + 1..], m);
      SumConcat(b[..j], [b[j]], m);
      SumConcat(b[..j], b[j + 1..], m);
      assert SumOf([b[j]], m) == Apply(m, b[j]) by {
        assert [b[j]][..0] == [];
      }
    }
  }

  /** Statistics depend only on the multiset of grades. */
  lemma StatsPerm(a: seq<real>, b: seq<real>)
    requires |a| > 0 && multiset(a) == multiset(b)
    ensures |b| > 0 && StatsOf(a) == StatsOf(b)
  {
    assert |b| == |multiset(b)| == |multiset(a)| == |a|;
    SumPerm(a, b, Identity);
    var avg := StatsOf(a).avg;
    assert avg == StatsOf(b).avg;
    SumPerm(a, b, SquaredDeviation(avg));
    ExtremesPerm(a, b);
    ExtremesPerm(b, a);
  }

  /** The extremes of `b` bound those of any permutation `a` of it. */
  lemma ExtremesPerm(a: seq<real>, b: seq<real>)
    requires |a| > 0 && |b| > 0 && multiset(a) == multiset(b)
    ensures MinOf(a) <= MinOf(b) && MaxOf(b) <= MaxOf(a)
  {
    ExtremesSpec(a);
    ExtremesSpec(b);
    assert MinOf(b) in multiset(a) && MaxOf(b) in multiset(a);
    var i :| 0 <= i < |a| && a[i] == MinOf(b);
    var k :| 0 <= k < |a| && a[k] == MaxOf(b);
  }

  lemma {:induction false} GradesOnPerm(a: seq<Entry>, b: seq<Entry>, d: string)
    requires multiset(a) == multiset(b)
    ensures multiset(GradesOn(a, d)) == multiset(GradesOn(b, d))
    decreases |a|
  {
    if |a| > 0 {
      var j := PermSplit(a, b);
      var rest := b[..j] + b[j + 1..];
      GradesOnPerm(a[..|a| - 1], rest, d);
      GradesOnConcat(b[..j] + [b[j]], b[j + 1..], d);
      GradesOnConcat(b[..j], [b[j]], d);
      GradesOnConcat(b[..j], b[j + 1..], d);
      assert [b[j]][..0] == [];
    }
  }

  lemma AllParsePerm(a: seq<Entry>, b: seq<Entry>)
    requires multiset(a) == multiset(b) && AllParse(a)
    ensures AllParse(b)
  {
    forall i | 0 <= i < |b| ensures b[i].day.Some? {
      assert b[i] in multiset(a);
      var k :| 0 <= k < |a| && a[k] == b[i];
    }
  }

  /** Reordering the works changes nothing in the result. */
  lemma StatsByDateOrderIndependent(a: seq<Entry>, b: seq<Entry>)
    requires multiset(a) == multiset(b)
    ensures StatsByDate(a) == StatsByDate(b)
  {
    if AllParse(a) {
      AllParsePerm(a, b);
    }
    if AllParse(b) {
      AllParsePerm(b, a);
    }
    if AllParse(a) {
      var ga, gb := Group(a), Group(b);
      forall d
        ensures d in ga <==> d in gb
        ensures d in ga ==> d in gb && |ga[d]| > 0 && |gb[d]| > 0 && StatsOf(ga[d]) == StatsOf(gb[d])
      {
        GroupIsGradesOn(a, d);
        GroupIsGradesOn(b, d);
        GradesOnPerm(a, b, d);
        assert |GradesOn(a, d)| == |GradesOn(b, d)| by {
          assert |multiset(GradesOn(a, d))| == |multiset(GradesOn(b, d))|;
        }
        if d in ga {
          StatsPerm(GradesOn(a, d), GradesOn(b, d));
        }
      }
      var ra, rb := StatsMap(ga), StatsMap(gb);
      assert ra.Keys == rb.Keys;
      forall d | d in ra ensures ra[d] == rb[d] {
        assert ra[d] == StatsOf(ga[d]) && rb[d] == StatsOf(gb[d]);
      }
      MapsEqual(ra, rb);
    }
  }

  // ---------------------------------------------------------------------------------------
  // The two entry points

  /** `order` lists the keys of `keys`, each once: an order a Go range may visit them in. */
  predicate IsEnumeration(order: seq<string>, keys: set<string>) {
    (forall i, j :: 0 <= i < j < |order| ==> order[i] != order[j]) &&
    (forall k :: k in order ==> k in keys) && (forall k :: k in keys ==> k in order)
  }

  /** A portfolio's works in the order visited. */
  function Entries(p: map<string, U.Work>, order: seq<string>): (es: seq<Entry>)
    requires forall k :: k in order ==> k in p
    ensures |es| == |order|
    decreases |order|
  {
    if |order| == 0 then []
    else Entries(p, order[..|order| - 1]) + [WorkEntry(p, order[|order| - 1])]
  }

  function WorkEntry(p: map<string, U.Work>, key: string): Entry
    requires key in p
  {
    Entry(key, TK.DatePart(key), p[key].gradingOutcome.totalGrade)
  }

  /** The i-th entry is the work under the i-th visited key. */
  lemma {:induction false} EntriesAt(p: map<string, U.Work>, order: seq<string>, i: int)
    requires forall k :: k in order ==> k in p
    requires 0 <= i < |order|
    ensures Entries(p, order)[i] == WorkEntry(p, order[i])
    decreases |order|
  {
    if i < |order| - 1 {
      var init := order[..|order| - 1];
      assert forall k :: k in init ==> k in order;
      EntriesAt(p, init, i);
      assert init[i] == order[i];
    }
  }

  /** Two enumerations of one portfolio visit the same works. */
  lemma EnumerationsPermute(p: map<string, U.Work>, o1: seq<string>, o2: seq<string>)
    requires IsEnumeration(o1, p.Keys) && IsEnumeration(o2, p.Keys)
    ensures multiset(Entries(p, o1)) == multiset(Entries(p, o2))
  {
    var e1, e2 := Entries(p, o1), Entries(p, o2);
    EntriesDistinct(p, o1);
    EntriesDistinct(p, o2);
    DistinctMultiset(e1);
    DistinctMultiset(e2);
    EntriesCover(p, o1, o2);
    EntriesCover(p, o2, o1);
    forall x ensures multiset(e1)[x] == multiset(e2)[x] {
      assert x in e1 <==> x in e2;
    }
    assert multiset(e1) == multiset(e2);
  }

  /** Distinct keys give distinct entries. */
  lemma EntriesDistinct(p: map<string, U.Work>, o: seq<string>)
    requires forall k :: k in o ==> k in p
    requires forall i, j :: 0 <= i < j < |o| ==> o[i] != o[j]
    ensures forall i, j :: 0 <= i < j < |Entries(p, o)| ==> Entries(p, o)[i] != Entries(p, o)[j]
  {
    forall i, j | 0 <= i < j < |o| ensures Entries(p, o)[i] != Entries(p, o)[j] {
      EntriesAt(p, o, i);
      EntriesAt(p, o, j);
    }
  }

  /** Every work visited by `o1` is visited by `o2` when every key of `o1` is in `o2`. */
  lemma EntriesCover(p: map<string, U.Work>, o1: seq<string>, o2: seq<string>)
    requires forall k :: k in o1 ==> k in p
    requires forall k :: k in o2 ==> k in p
    requires forall k :: k in o1 ==> k in o2
    ensures forall x :: x in Entries(p, o1) ==> x in Entries(p, o2)
  {
    forall x | x in Entries(p, o1) ensures x in Entries(p, o2) {
      var i :| 0 <= i < |o1| && Entries(p, o1)[i] == x;
      EntriesAt(p, o1, i);
      assert o1[i] in o1;
      assert o1[i] in o2;
      var j :| 0 <= j < |o2| && o2[j] == o1[i];
      EntriesAt(p, o2, j);
    }
  }

  /** The statistics of a portfolio do not depend on the order Go's range visits its works. */
  lemma PortfolioOrderIndependent(p: map<string, U.Work>, o1: seq<string>, o2: seq<string>)
    requires IsEnumeration(o1, p.Keys) && IsEnumeration(o2, p.Keys)
    ensures StatsByDate(Entries(p, o1)) == StatsByDate(Entries(p, o2))
  {
    EnumerationsPermute(p, o1, o2);
    StatsByDateOrderIndependent(Entries(p, o1), Entries(p, o2));
  }

  /** A list without repeats has every element with multiplicity one. */
  lemma {:induction false} DistinctMultiset<X>(s: seq<X>)
    requires forall i, j :: 0 <= i < j < |s| ==> s[i] != s[j]
    ensures forall x :: multiset(s)[x] == if x in s then 1 else 0
    decreases |s|
  {
    if |s| > 0 {
      var init := s[..|s| - 1];
      DistinctMultiset(init);
      assert s == init + [s[|s| - 1]];
      assert s[|s| - 1] !in init;
    }
  }

  /** GetUserSkillStats: a missing user or an unknown skill is an error; otherwise the
      statistics of the portfolio's works (none when it is empty). */
  method GetUserSkillStats(users: U.UserStore, userId: string, skill: string, order: seq<string>)
    returns (r: Result<map<string, Stats>, string>)
    requires userId in users.docs && U.GetSkillPortfolio(users.docs[userId].portfolio, skill).Some? ==>
               IsEnumeration(order, U.GetSkillPortfolio(users.docs[userId].portfolio, skill).value.Keys)
    ensures userId !in users.docs || userId in users.unavailable ==> r.Err?
    ensures userId in users.docs && userId !in users.unavailable ==>
              var p := U.GetSkillPortfolio(users.docs[userId].portfolio, skill);
              (p.None? ==> r == Err(SkillError)) &&
              (p.Some? ==> r == StatsByDate(Entries(p.value, order)))
  {
    var user := users.GetUserData(userId);
    if user.Err? {
      return Err(user.error);
    }
    var portfolio := U.GetSkillPortfolio(user.value.portfolio, skill);
    if portfolio.None? {
      return Err(SkillError);
    }
    var grouped := AddWorks(map[], [], portfolio.value, order);
    if grouped.Err? {
      return Err(ParseError);
    }
    assert Entries(portfolio.value, order) == [] + Entries(portfolio.value, order);
    r := ComputeDateStats(grouped.value);
    ResultIsStatsByDate(Entries(portfolio.value, order), grouped.value, r);
  }

  /** ComputeDateStats of the buckets is StatsByDate of the works bucketed. */
  lemma ResultIsStatsByDate(es: seq<Entry>, g: map<string, seq<real>>, r: Result<map<string, Stats>, string>)
    requires AllParse(es) && g == Group(es)
    requires r.Ok? <==> forall d :: d in g ==> |g[d]| > 0
    requires r.Ok? ==> r.value.Keys == g.Keys && forall d :: d in r.value ==> r.value[d] == StatsOf(g[d])
    ensures r == StatsByDate(es)
  {
    forall d | d in g ensures g[d] == GradesOn(es, d) && |g[d]| > 0 {
      GroupIsGradesOn(es, d);
    }
    var m := StatsMap(g);
    assert r.Ok?;
    assert r.value.Keys == m.Keys;
    forall d | d in m ensures r.value[d] == m[d] {
      assert m[d] == StatsOf(g[d]);
    }
    MapsEqual(r.value, m);
  }

  lemma MapsEqual<K, V>(a: map<K, V>, b: map<K, V>)
    requires a.Keys == b.Keys && forall k :: k in a ==> a[k] == b[k]
    ensures a == b
  {
  }

  /** The inner range loop: appends each visited work's grade to its day's bucket, failing on
      the first key that does not parse. `seen` is what `g` already holds. */
  method AddWorks(g: map<string, seq<real>>, ghost seen: seq<Entry>, p: map<string, U.Work>, order: seq<string>)
    returns (r: Result<map<string, seq<real>>, string>)
    requires AllParse(seen) && g == Group(seen)
    requires forall k :: k in order ==> k in p
    ensures r.Err? <==> !AllParse(Entries(p, order))
    ensures r.Ok? ==> AllParse(seen + Entries(p, order)) && r.value == Group(seen + Entries(p, order))
  {
    var gradesOnDate := g;
    ghost var es := Entries(p, order);
    var i := 0;
    while i < |order|
      invariant 0 <= i <= |order|
      invariant AllParse(es[..i])
      invariant gradesOnDate == Extend(g, es[..i])
    {
      var key := order[i];
      var date := TK.DatePart(key);
      EntriesAt(p, order, i);
      if date.None? {
        assert es[i].day == date;
        return Err(ParseError);
      }
      ExtendStep(g, es, i);
      var d := date.value;
      gradesOnDate := gradesOnDate[d := (if d in gradesOnDate then gradesOnDate[d] else [])
                                        + [p[key].gradingOutcome.totalGrade]];
      i := i + 1;
    }
    assert es[..i] == es;
    ExtendConcat(map[], seen, es);
    r := Ok(gradesOnDate);
  }

  /** One bucketing step: the (i+1)-th grade goes to the end of its day's bucket. */
  lemma ExtendStep(g: map<string, seq<real>>, es: seq<Entry>, i: int)
    requires 0 <= i < |es| && AllParse(es[..i]) && es[i].day.Some?
    ensures AllParse(es[..i + 1])
    ensures var h := Extend(g, es[..i]);
            var d := es[i].day.value;
            Extend(g, es[..i + 1]) == h[d := (if d in h then h[d] else []) + [es[i].grade]]
  {
    assert es[..i + 1][..i] == es[..i];
  }

  /** The works GetClassSkillStats buckets: those of every scanned user that decodes and has
      the skill's portfolio, user by user in scan order. */
  function ClassEntries(docs: map<string, U.UserData>, unavailable: set<string>, skill: string,
                        scanned: seq<string>, orders: map<string, seq<string>>): seq<Entry>
    requires ClassOrders(docs, unavailable, skill, scanned, orders)
    decreases |scanned|
  {
    if |scanned| == 0 then []
    else
      var init := scanned[..|scanned| - 1];
      var id := scanned[|scanned| - 1];
      ClassEntries(docs, unavailable, skill, init, orders) + UserEntries(docs, unavailable, skill, id, orders)
  }

  /** The works one scanned document contributes: none when it does not decode or lacks the
      skill's portfolio. */
  function UserEntries(docs: map<string, U.UserData>, unavailable: set<string>, skill: string, id: string,
                       orders: map<string, seq<string>>): seq<Entry>
    requires ClassOrders(docs, unavailable, skill, [id], orders)
  {
    if id !in docs || id in unavailable then []
    else
      var p := U.GetSkillPortfolio(docs[id].portfolio, skill);
      if p.None? then [] else Entries(p.value, orders[id])
  }

  /** Every scanned user that decodes and has the skill's portfolio comes with the order its
      works are visited in. */
  predicate ClassOrders(docs: map<string, U.UserData>, unavailable: set<string>, skill: string,
                        scanned: seq<string>, orders: map<string, seq<string>>)
  {
    forall id :: id in scanned && id in docs && id !in unavailable && U.GetSkillPortfolio(docs[id].portfolio, skill).Some? ==>
      id in orders && IsEnumeration(orders[id], U.GetSkillPortfolio(docs[id].portfolio, skill).value.Keys)
  }

  /** GetClassSkillStats. `scanned` lists the documents the iterator yields before its first
      error (including the end-of-collection one), which ends the scan silently; documents that
      fail to decode and users without the skill's portfolio are skipped. */
  method GetClassSkillStats(users: U.UserStore, skill: string, scanned: seq<string>, orders: map<string, seq<string>>)
    returns (r: Result<map<string, Stats>, string>)
    requires ClassOrders(users.docs, users.unavailable, skill, scanned, orders)
    ensures r == StatsByDate(ClassEntries(users.docs, users.unavailable, skill, scanned, orders))
  {
    var gradesOnDate: map<string, seq<real>> := map[];
    ghost var es: seq<Entry> := [];
    var i := 0;
    while i < |scanned|
      invariant 0 <= i <= |scanned|
      invariant ClassOrders(users.docs, users.unavailable, skill, scanned[..i], orders)
      invariant es == ClassEntries(users.docs, users.unavailable, skill, scanned[..i], orders)
      invariant AllParse(es) && gradesOnDate == Group(es)
    {
      var id := scanned[i];
      ClassStep(users.docs, users.unavailable, skill, scanned, orders, i);
      ghost var more := UserEntries(users.docs, users.unavailable, skill, id, orders);
      var added := AddUser(users, skill, id, orders, gradesOnDate, es);
      if added.Err? {
        NotAllParse(es, more);
        PrefixFailure(users.docs, users.unavailable, skill, scanned, orders, i + 1);
        return Err(ParseError);
      }
      gradesOnDate := added.value;
      es := es + more;
      i := i + 1;
    }
    assert scanned[..i] == scanned;
    var stats := ComputeDateStats(gradesOnDate);
    ResultIsStatsByDate(es, gradesOnDate, stats);
    r := stats;
  }

  /** One scanned document: adds the works of a user that decodes and has the skill's
      portfolio to the buckets, and skips any other document. */
  method AddUser(users: U.UserStore, skill: string, id: string, orders: map<string, seq<string>>,
                 g: map<string, seq<real>>, ghost seen: seq<Entry>)
    returns (r: Result<map<string, seq<real>>, string>)
    requires ClassOrders(users.docs, users.unavailable, skill, [id], orders)
    requires AllParse(seen) && g == Group(seen)
    ensures r.Err? <==> !AllParse(UserEntries(users.docs, users.unavailable, skill, id, orders))
    ensures r.Ok? ==> var es := seen + UserEntries(users.docs, users.unavailable, skill, id, orders);
                      AllParse(es) && r.value == Group(es)
  {
    assert id in [id];
    ghost var more := UserEntries(users.docs, users.unavailable, skill, id, orders);
    var user := users.GetUserData(id);
    if user.Err? {
      assert seen + more == seen;
      return Ok(g);
    }
    var port := U.GetSkillPortfolio(user.value.portfolio, skill);
    if port.None? {
      assert seen + more == seen;
      return Ok(g);
    }
    r := AddWorks(g, seen, port.value, orders[id]);
  }

  /** One scan step: the works of the first i + 1 users are those of the first i followed by
      the (i+1)-th user's. */
  lemma ClassStep(docs: map<string, U.UserData>, unavailable: set<string>, skill: string,
                  scanned: seq<string>, orders: map<string, seq<string>>, i: int)
    requires ClassOrders(docs, unavailable, skill, scanned, orders) && 0 <= i < |scanned|
    ensures ClassOrders(docs, unavailable, skill, scanned[..i + 1], orders)
    ensures ClassOrders(docs, unavailable, skill, [scanned[i]], orders)
    ensures ClassOrders(docs, unavailable, skill, scanned[..i], orders)
    ensures ClassEntries(docs, unavailable, skill, scanned[..i + 1], orders)
            == ClassEntries(docs, unavailable, skill, scanned[..i], orders)
               + UserEntries(docs, unavailable, skill, scanned[i], orders)
  {
    assert forall id :: id in scanned[..i + 1] ==> id in scanned;
    assert forall id :: id in scanned[..i] ==> id in scanned;
    assert scanned[i] in scanned;
    assert scanned[..i + 1][..i] == scanned[..i];
  }

  lemma NotAllParse(a: seq<Entry>, b: seq<Entry>)
    requires !AllParse(b)
    ensures !AllParse(a + b)
  {
    var i :| 0 <= i < |b| && b[i].day.None?;
    assert (a + b)[|a| + i] == b[i];
  }

  /** If the works of the first `n` scanned users do not all parse, neither do all of them. */
  lemma {:induction false} PrefixFailure(docs: map<string, U.UserData>, unavailable: set<string>, skill: string,
                                         scanned: seq<string>, orders: map<string, seq<string>>, n: int)
    requires ClassOrders(docs, unavailable, skill, scanned, orders) && 0 <= n <= |scanned|
    requires ClassOrders(docs, unavailable, skill, scanned[..n], orders)
    requires !AllParse(ClassEntries(docs, unavailable, skill, scanned[..n], orders))
    ensures !AllParse(ClassEntries(docs, unavailable, skill, scanned, orders))
    decreases |scanned| - n
  {
    if n < |scanned| {
      var m := n + 1;
      ClassStep(docs, unavailable, skill, scanned, orders, n);
      var es := ClassEntries(docs, unavailable, skill, scanned[..n], orders);
      var i :| 0 <= i < |es| && es[i].day.None?;
      assert ClassEntries(docs, unavailable, skill, scanned[..m], orders)[i] == es[i];
      PrefixFailure(docs, unavailable, skill, scanned, orders, m);
    } else {
      assert scanned[..n] == scanned;
    }
  }
}
