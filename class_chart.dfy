/** The chart data of the class page in liff/src/app/class/page.tsx: a timeline of at most
    six dates taken from the backend's statistics, with the class and the viewer's average
    on each. toFixed(2) rounding is not modelled: the averages are kept exact. */
module ClassChart {
  import opened Wrappers
  import S = Stats
  import D = DateOrder

  datatype Row = Row(date: string, classAvg: Option<real>, personalAvg: Option<real>)

  /** The dates the timeline is drawn from: the class statistics' when they loaded, else the
      viewer's when they loaded, else none. An empty key list is a truthy value, so loaded
      but empty class statistics are still chosen. */
  function BaseKeys(cls: Option<map<string, S.Stats>>, personal: Option<map<string, S.Stats>>): set<string> {
    if cls.Some? then cls.value.Keys else if personal.Some? then personal.value.Keys else {}
  }

  /** slice(-6): the last six elements, or all of them when there are fewer. */
  function Latest(s: seq<string>): seq<string> {
    if |s| <= 6 then s else s[|s| - 6..]
  }

  /** `stats?.[date]?.avg`. */
  function AvgAt(stats: Option<map<string, S.Stats>>, date: string): Option<real> {
    if stats.Some? && date in stats.value then Some(stats.value[date].avg) else None
  }

  /** chartData. `keys` is the Object.keys order of the chosen statistics. */
  function ChartData(cls: Option<map<string, S.Stats>>, personal: Option<map<string, S.Stats>>,
                     keys: seq<string>): seq<Row>
    requires D.Lists(keys, BaseKeys(cls, personal))
  {
    var dates := Latest(D.Sort(keys));
    seq(|dates|, i requires 0 <= i < |dates| => Row(dates[i], AvgAt(cls, dates[i]), AvgAt(personal, dates[i])))
  }

  /** The chart shows min(6, n) of the n base dates, in increasing order. */
  lemma ChartDataDates(cls: Option<map<string, S.Stats>>, personal: Option<map<string, S.Stats>>, keys: seq<string>)
    requires D.Lists(keys, BaseKeys(cls, personal))
    ensures var r := ChartData(cls, personal, keys);
            |r| == (if |BaseKeys(cls, personal)| <= 6 then |BaseKeys(cls, personal)| else 6)
            && (forall i, j :: 0 <= i < j < |r| ==> D.Less(r[i].date, r[j].date))
            && (forall i :: 0 <= i < |r| ==> r[i].date in BaseKeys(cls, personal))
  {
    RowDates(cls, personal, keys);
    D.ListsSize(keys, BaseKeys(cls, personal));
    WindowDates(keys);
  }

  /** The dates shown are the latest: every base date left out comes before every date
      shown. */
  lemma ChartDataLatest(cls: Option<map<string, S.Stats>>, personal: Option<map<string, S.Stats>>, keys: seq<string>)
    requires D.Lists(keys, BaseKeys(cls, personal))
    ensures var r := ChartData(cls, personal, keys);
            forall d :: d in BaseKeys(cls, personal) && (forall i :: 0 <= i < |r| ==> r[i].date != d) ==>
              forall i :: 0 <= i < |r| ==> D.Less(d, r[i].date)
  {
    RowDates(cls, personal, keys);
    WindowLatest(keys);
  }

  /** Row i is drawn for the i-th date of the window. */
  lemma RowDates(cls: Option<map<string, S.Stats>>, personal: Option<map<string, S.Stats>>, keys: seq<string>)
    requires D.Lists(keys, BaseKeys(cls, personal))
    ensures var r, w := ChartData(cls, personal, keys), Latest(D.Sort(keys));
            |r| == |w| && forall i :: 0 <= i < |r| ==> r[i].date == w[i]
  {
  }

  /** The window of the sorted keys: min(6, n) of them, increasing. */
  lemma WindowDates(keys: seq<string>)
    requires D.Distinct(keys)
    ensures var w := Latest(D.Sort(keys));
            |w| == (if |keys| <= 6 then |keys| else 6) && D.Ascending(w) && forall i :: 0 <= i < |w| ==> w[i] in keys
  {
    var sorted := D.Sort(keys);
    var w := Latest(sorted);
    assert |sorted| == |multiset(sorted)| == |multiset(keys)| == |keys|;
    LatestOfAscending(sorted);
    forall i | 0 <= i < |w| ensures w[i] in keys {
      assert w[i] in multiset(sorted);
    }
  }

  /** A key outside the window sorts before every key in it. */
  lemma WindowLatest(keys: seq<string>)
    requires D.Distinct(keys)
    ensures var w := Latest(D.Sort(keys));
            forall d :: d in keys && d !in w ==> forall i :: 0 <= i < |w| ==> D.Less(d, w[i])
  {
    var sorted := D.Sort(keys);
    var w := Latest(sorted);
    LatestOfAscending(sorted);
    var off := |sorted| - |w|;
    forall d | d in keys && d !in w ensures forall i :: 0 <= i < |w| ==> D.Less(d, w[i]) {
      assert d in multiset(sorted);
      forall j | off <= j < |sorted| ensures sorted[j] != d {
        assert w[j - off] == sorted[j];
      }
      var k :| 0 <= k < |sorted| && sorted[k] == d;
    }
  }

  /** The window slice(-6) keeps of an increasing list is increasing, is the list's tail,
      and lies above everything it drops. */
  lemma LatestOfAscending(sorted: seq<string>)
    requires D.Ascending(sorted)
    ensures var w := Latest(sorted);
            |w| == (if |sorted| <= 6 then |sorted| else 6) && w == sorted[|sorted| - |w|..]
            && D.Ascending(w)
            && forall k, i :: 0 <= k < |sorted| - |w| && 0 <= i < |w| ==> D.Less(sorted[k], w[i])
  {
    var w := Latest(sorted);
    var off := |sorted| - |w|;
    assert forall i :: 0 <= i < |w| ==> w[i] == sorted[off + i];
  }

  /** Each row carries an average exactly where that source has the date. */
  lemma ChartDataAverages(cls: Option<map<string, S.Stats>>, personal: Option<map<string, S.Stats>>, keys: seq<string>)
    requires D.Lists(keys, BaseKeys(cls, personal))
    ensures var r := ChartData(cls, personal, keys);
            forall i :: 0 <= i < |r| ==>
              (r[i].classAvg.Some? <==> cls.Some? && r[i].date in cls.value) &&
              (r[i].classAvg.Some? ==> r[i].classAvg.value == cls.value[r[i].date].avg) &&
              (r[i].personalAvg.Some? <==> personal.Some? && r[i].date in personal.value) &&
              (r[i].personalAvg.Some? ==> r[i].personalAvg.value == personal.value[r[i].date].avg)
  {
  }

  /** The Object.keys order of the statistics does not change the chart. */
  lemma ChartDataOrderIndependent(cls: Option<map<string, S.Stats>>, personal: Option<map<string, S.Stats>>,
                                  k1: seq<string>, k2: seq<string>)
    requires D.Lists(k1, BaseKeys(cls, personal)) && D.Lists(k2, BaseKeys(cls, personal))
    ensures ChartData(cls, personal, k1) == ChartData(cls, personal, k2)
  {
    D.ListingsAgree(k1, k2, BaseKeys(cls, personal));
    D.SortOrderIndependent(k1, k2);
  }

  /** Class statistics that loaded empty hide the viewer's own dates. */
  lemma EmptyClassHidesPersonal(personal: Option<map<string, S.Stats>>, keys: seq<string>)
    requires D.Lists(keys, BaseKeys(Some(map[]), personal))
    ensures ChartData(Some(map[]), personal, keys) == []
  {
    D.ListsSize(keys, {});
  }
}
