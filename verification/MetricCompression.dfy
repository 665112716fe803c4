/** `compress_metrics`: per-series baselines, anomalies and their order; agreement with the selector. */
module MetricCompression {
  import opened Wrappers
  import opened Sorting
  import opened PyDict
  import opened Strings
  import opened Sums
  import opened Signals
  import opened SignalSelector

  /** One (label, value) pair of an item. */
  datatype Sample = Sample(item: nat, value: real, time: Option<Stamp>)

  // ------------------------------------------------------------------ collecting the series

  function PairKeys(item: MetricItem, m: nat): seq<Option<SeriesKey>>
    requires m <= |item.pairs|
  {
    seq(m, j requires 0 <= j < m => Some((item.service, item.pairs[j].name)))
  }

  function PairSamples(item: MetricItem, i: nat, m: nat): seq<Sample>
    requires m <= |item.pairs|
  {
    seq(m, j requires 0 <= j < m => Sample(i, item.pairs[j].value, item.time))
  }

  /** The keys of all pairs of the first `n` items, in input order. */
  function FlatKeys(items: seq<MetricItem>, n: nat): seq<Option<SeriesKey>>
    requires n <= |items|
  {
    if n == 0 then [] else FlatKeys(items, n - 1) + PairKeys(items[n - 1], |items[n - 1].pairs|)
  }

  function FlatSamples(items: seq<MetricItem>, n: nat): (r: seq<Sample>)
    requires n <= |items|
    ensures |r| == |FlatKeys(items, n)|
  {
    if n == 0 then [] else FlatSamples(items, n - 1) + PairSamples(items[n - 1], n - 1, |items[n - 1].pairs|)
  }

  /** The series in order of first appearance. */
  function AllSeries(items: seq<MetricItem>): Dict<SeriesKey, Sample> {
    SeriesUpTo(items, |items|)
  }

  function UnparsedItems(items: seq<MetricItem>, n: nat): seq<nat>
    requires n <= |items|
  {
    if n == 0 then []
    else if items[n - 1].pairs == [] then UnparsedItems(items, n - 1) + [n - 1]
    else UnparsedItems(items, n - 1)
  }

  lemma {:induction false} GroupOfPrefix<K, E>(ks: seq<Option<K>>, es: seq<E>, ls: seq<Option<K>>, fs: seq<E>, n: nat)
    requires n <= |ks| == |es| && |ls| == |fs| && ks <= ls && es <= fs
    ensures Group(ls, fs, n) == Group(ks, es, n)
  {
    if n > 0 {
      GroupOfPrefix(ks, es, ls, fs, n - 1);
    }
  }

  /** One more keyed element. */
  lemma {:induction false} GroupSnoc<K, E>(ks: seq<Option<K>>, es: seq<E>, k: K, e: E)
    requires |ks| == |es|
    ensures Group(ks + [Some(k)], es + [e], |ks| + 1) == Append(Group(ks, es, |ks|), k, e)
  {
    GroupOfPrefix(ks, es, ks + [Some(k)], es + [e], |ks|);
  }

  lemma PairSnoc(item: MetricItem, i: nat, m: nat)
    requires m < |item.pairs|
    ensures PairKeys(item, m + 1) == PairKeys(item, m) + [Some((item.service, item.pairs[m].name))]
    ensures PairSamples(item, i, m + 1) == PairSamples(item, i, m) + [Sample(i, item.pairs[m].value, item.time)]
  {
  }

  /** The series when the first `m` pairs of an item have been added to what `ks` and `es` hold. */
  function Partly(ks: seq<Option<SeriesKey>>, es: seq<Sample>, item: MetricItem, i: nat, m: nat): (d: Dict<SeriesKey, Sample>)
    requires |ks| == |es| && m <= |item.pairs|
    ensures |d.keys| == |d.vals|
  {
    Group(ks + PairKeys(item, m), es + PairSamples(item, i, m), |ks| + m)
  }

  lemma PartlyNext(ks: seq<Option<SeriesKey>>, es: seq<Sample>, item: MetricItem, i: nat, m: nat)
    requires |ks| == |es| && m < |item.pairs|
    ensures Partly(ks, es, item, i, m + 1)
            == Append(Partly(ks, es, item, i, m), (item.service, item.pairs[m].name), Sample(i, item.pairs[m].value, item.time))
  {
    var key := (item.service, item.pairs[m].name);
    var sample := Sample(i, item.pairs[m].value, item.time);
    PairSnoc(item, i, m);
    SnocAfter(ks, PairKeys(item, m), Some(key));
    SnocAfter(es, PairSamples(item, i, m), sample);
    GroupSnoc(ks + PairKeys(item, m), es + PairSamples(item, i, m), key, sample);
  }

  lemma SnocAfter<T>(a: seq<T>, b: seq<T>, x: T)
    ensures a + (b + [x]) == a + b + [x]
  {
  }

  lemma {:induction false} PartlyNone(ks: seq<Option<SeriesKey>>, es: seq<Sample>, item: MetricItem, i: nat)
    requires |ks| == |es|
    ensures Partly(ks, es, item, i, 0) == Group(ks, es, |ks|)
  {
    assert ks + PairKeys(item, 0) == ks && es + PairSamples(item, i, 0) == es;
  }

  /** The series after the first `n` items. */
  function SeriesUpTo(items: seq<MetricItem>, n: nat): (d: Dict<SeriesKey, Sample>)
    requires n <= |items|
    ensures |d.keys| == |d.vals|
  {
    Group(FlatKeys(items, n), FlatSamples(items, n), |FlatKeys(items, n)|)
  }

  lemma UpToNext(items: seq<MetricItem>, n: nat)
    requires n < |items|
    ensures SeriesUpTo(items, n + 1) == Partly(FlatKeys(items, n), FlatSamples(items, n), items[n], n, |items[n].pairs|)
    ensures items[n].pairs == [] ==> SeriesUpTo(items, n + 1) == SeriesUpTo(items, n)
  {
    if items[n].pairs == [] {
      PartlyNone(FlatKeys(items, n), FlatSamples(items, n), items[n], n);
    }
  }

  method CollectAll(items: seq<MetricItem>) returns (series: Dict<SeriesKey, Sample>, unparsed: seq<nat>)
    ensures series == AllSeries(items) && unparsed == UnparsedItems(items, |items|)
  {
    series := Dict([], []);
    unparsed := [];
    for idx := 0 to |items|
      invariant series == SeriesUpTo(items, idx) && unparsed == UnparsedItems(items, idx)
    {
      var item := items[idx];
      UpToNext(items, idx);
      if item.pairs == [] {
        unparsed := unparsed + [idx];
      } else {
        ghost var ks, es := FlatKeys(items, idx), FlatSamples(items, idx);
        PartlyNone(ks, es, item, idx);
        for m := 0 to |item.pairs|
          invariant series == Partly(ks, es, item, idx, m)
        {
          PartlyNext(ks, es, item, idx, m);
          series := Append(series, (item.service, item.pairs[m].name), Sample(idx, item.pairs[m].value, item.time));
        }
      }
    }
  }

  // ------------------------------------------------------------------ one series

  /** Lies before the trigger. */
  function Early(trigger: Option<Stamp>): Sample -> bool {
    (s: Sample) => IsBase(trigger, s.time)
  }

  function Baseline(trigger: Option<Stamp>, pts: seq<Sample>): seq<Sample> {
    Filter(Early(trigger), pts)
  }

  function Incident(trigger: Option<Stamp>, pts: seq<Sample>): seq<Sample> {
    Filter(Not(Early(trigger)), pts)
  }

  function ValueOf(s: Sample): real {
    s.value
  }

  function Values(pts: seq<Sample>): seq<real> {
    MapSeq(ValueOf, pts)
  }

  function Straying(mu: real, variance: real): Sample -> bool {
    (s: Sample) => Strays(s.value, mu, variance)
  }

  /** One line of the table. */
  datatype Row = Row(service: string, name: string, base: seq<Sample>, incid: seq<Sample>)

  function RowOf(key: SeriesKey, pts: seq<Sample>, trigger: Option<Stamp>): Row {
    Row(Shown(key.0), key.1, Baseline(trigger, pts), Incident(trigger, pts))
  }

  /** The first `n` samples compare a naive time with an aware one. */
  predicate MixedBefore(pts: seq<Sample>, trigger: Option<Stamp>, n: nat)
    requires n <= |pts|
  {
    n > 0 && (MixedBefore(pts, trigger, n - 1) || !Comparable(trigger, pts[n - 1].time))
  }

  predicate MixedPoints(pts: seq<Sample>, trigger: Option<Stamp>) {
    MixedBefore(pts, trigger, |pts|)
  }

  lemma {:induction false} MixedMeans(pts: seq<Sample>, trigger: Option<Stamp>, n: nat)
    requires n <= |pts|
    ensures MixedBefore(pts, trigger, n) <==> exists i :: 0 <= i < n && !Comparable(trigger, pts[i].time)
  {
    if n > 0 {
      MixedMeans(pts, trigger, n - 1);
    }
  }

  /** Split one series at the trigger; comparing a naive with an aware time fails. */
  method Split(pts: seq<Sample>, trigger: Option<Stamp>) returns (r: Outcome<(seq<Sample>, seq<Sample>)>)
    ensures r.MixedZones? <==> MixedPoints(pts, trigger)
    ensures r.Ok? ==> r.value == (Baseline(trigger, pts), Incident(trigger, pts))
  {
    var base: seq<Sample>, incid: seq<Sample> := [], [];
    for i := 0 to |pts|
      invariant base == Baseline(trigger, pts[..i]) && incid == Incident(trigger, pts[..i])
      invariant !MixedBefore(pts, trigger, i)
    {
      if !Comparable(trigger, pts[i].time) {
        MixedMeans(pts, trigger, |pts|);
        return MixedZones;
      }
      FilterNext(Early(trigger), pts, i);
      FilterNext(Not(Early(trigger)), pts, i);
      if IsBase(trigger, pts[i].time) {
        base := base + [pts[i]];
      } else {
        incid := incid + [pts[i]];
      }
    }
    assert pts[..|pts|] == pts;
    r := Ok((base, incid));
  }

  /** One series: its baseline and its incident samples. */
  method Assess(key: SeriesKey, pts: seq<Sample>, trigger: Option<Stamp>) returns (r: Outcome<Row>)
    ensures r.MixedZones? <==> MixedPoints(pts, trigger)
    ensures r.Ok? ==> r.value == RowOf(key, pts, trigger)
  {
    var split := Split(pts, trigger);
    if split.MixedZones? {
      return MixedZones;
    }
    r := Ok(Row(Shown(key.0), key.1, split.value.0, split.value.1));
  }

  // ------------------------------------------------------------------ the anomaly of a row

  /** The incident samples that stray from the baseline, in input order. */
  function Deviants(r: Row): seq<Sample> {
    if r.base == [] || r.incid == [] then []
    else Filter(Straying(Mean(Values(r.base)), Variance(Values(r.base))), r.incid)
  }

  /** Squared distance from the mean. */
  function Off(s: Sample, mu: real): real {
    Square(s.value - mu)
  }

  /** `sigma or 1.0`, squared. */
  function Unit(variance: real): real {
    if variance == 0.0 then 1.0 else variance
  }

  /** `max(deviants, key=…)`: the first element of greatest distance. */
  function Farthest(devs: seq<Sample>, mu: real): Sample
    requires devs != []
  {
    var last := devs[|devs| - 1];
    if |devs| == 1 then last
    else
      var p := Farthest(devs[..|devs| - 1], mu);
      if Off(last, mu) > Off(p, mu) then last else p
  }

  /** The greatest squared distance in units of the variance. */
  function Greatest(devs: seq<Sample>, mu: real, unit: real): real
    requires devs != [] && unit != 0.0
  {
    var own := Off(devs[|devs| - 1], mu) / unit;
    if |devs| == 1 then own
    else
      var s := Greatest(devs[..|devs| - 1], mu, unit);
      if own > s then own else s
  }

  function Onset(r: Row): Option<Sample> {
    if Deviants(r) == [] then None else Some(Deviants(r)[0])
  }

  function Peak(r: Row): Option<Sample> {
    if Deviants(r) == [] then None else Some(Farthest(Deviants(r), Mean(Values(r.base))))
  }

  /** The square of the source's score: 0 without deviants. */
  function Score(r: Row): real {
    if Deviants(r) == [] then 0.0
    else Greatest(Deviants(r), Mean(Values(r.base)), Unit(Variance(Values(r.base))))
  }

  // ------------------------------------------------------------------ the table

  /** `(-score, service, label)`. */
  function RowLess(a: Row, b: Row): bool {
    Score(a) > Score(b)
    || (Score(a) == Score(b) && (StringLess(a.service, b.service) || (a.service == b.service && StringLess(a.name, b.name))))
  }

  function RowFor(trigger: Option<Stamp>): (SeriesKey, seq<Sample>) -> Row {
    (key: SeriesKey, pts: seq<Sample>) => RowOf(key, pts, trigger)
  }

  /** `[f(k, v) for k, v in d.items()]`, the first `n`. */
  function ForEach<K, V, R>(f: (K, V) -> R, ks: seq<K>, vs: seq<V>, n: nat): seq<R>
    requires n <= |ks| == |vs|
  {
    if n == 0 then [] else ForEach(f, ks, vs, n - 1) + [f(ks[n - 1], vs[n - 1])]
  }

  lemma {:induction false} ForEachAt<K, V, R>(f: (K, V) -> R, ks: seq<K>, vs: seq<V>, n: nat)
    requires n <= |ks| == |vs|
    ensures |ForEach(f, ks, vs, n)| == n && forall j :: 0 <= j < n ==> ForEach(f, ks, vs, n)[j] == f(ks[j], vs[j])
  {
    if n > 0 {
      ForEachAt(f, ks, vs, n - 1);
    }
  }

  function Rows(d: Dict<SeriesKey, Sample>, trigger: Option<Stamp>): seq<Row>
    requires |d.keys| == |d.vals|
  {
    ForEach(RowFor(trigger), d.keys, d.vals, |d.keys|)
  }

  function Table(items: seq<MetricItem>, trigger: Option<Stamp>): seq<Row> {
    Sort(RowLess, Rows(AllSeries(items), trigger))
  }

  /** Some series among the first `n` does. */
  predicate MixedUpTo(vals: seq<seq<Sample>>, trigger: Option<Stamp>, n: nat)
    requires n <= |vals|
  {
    n > 0 && (MixedUpTo(vals, trigger, n - 1) || MixedPoints(vals[n - 1], trigger))
  }

  predicate MixedAmong(vals: seq<seq<Sample>>, trigger: Option<Stamp>) {
    MixedUpTo(vals, trigger, |vals|)
  }

  lemma {:induction false} MixedGrows(vals: seq<seq<Sample>>, trigger: Option<Stamp>, j: nat, n: nat)
    requires j <= n <= |vals| && MixedUpTo(vals, trigger, j)
    ensures MixedUpTo(vals, trigger, n)
  {
    if j < n {
      MixedGrows(vals, trigger, j, n - 1);
    }
  }

  method AssessAll(series: Dict<SeriesKey, Sample>, trigger: Option<Stamp>) returns (r: Outcome<seq<Row>>)
    requires |series.keys| == |series.vals|
    ensures r.MixedZones? <==> MixedAmong(series.vals, trigger)
    ensures r.Ok? ==> r.value == Rows(series, trigger)
  {
    var scored: seq<Row> := [];
    for j := 0 to |series.keys|
      invariant scored == ForEach(RowFor(trigger), series.keys, series.vals, j)
      invariant !MixedUpTo(series.vals, trigger, j)
    {
      var row := Assess(series.keys[j], series.vals[j], trigger);
      if row.MixedZones? {
        MixedGrows(series.vals, trigger, j + 1, |series.vals|);
        return MixedZones;
      }
      scored := scored + [row.value];
    }
    r := Ok(scored);
  }

  method CompressMetrics(items: seq<MetricItem>, trigger: Option<Stamp>)
    returns (r: Outcome<seq<Row>>, unparsed: seq<nat>)
    ensures r.MixedZones? <==> MixedAmong(AllSeries(items).vals, trigger)
    ensures r.Ok? ==> r.value == Table(items, trigger) && unparsed == UnparsedItems(items, |items|)
  {
    var series: Dict<SeriesKey, Sample>;
    series, unparsed := CollectAll(items);
    r := AssessAll(series, trigger);
    if r.Ok? {
      r := Ok(Sort(RowLess, r.value));
    }
  }
}
