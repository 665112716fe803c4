/** What the metric table says, and that it judges points as the selector does. */
module MetricTheorems {
  import opened Wrappers
  import opened Sorting
  import opened PyDict
  import opened Strings
  import opened Sums
  import opened Signals
  import opened AnomalyCriterion
  import opened SignalSelector
  import opened SelectorTheorems
  import opened MetricCompression

  // ------------------------------------------------------------------ every pair is in one series

  lemma {:induction false} AllPairsKeyed(items: seq<MetricItem>, n: nat)
    requires n <= |items|
    ensures forall m :: 0 <= m < |FlatKeys(items, n)| ==> FlatKeys(items, n)[m].Some?
  {
    if n > 0 {
      AllPairsKeyed(items, n - 1);
    }
  }

  lemma {:induction false} KeyedIsAll<K, E>(ks: seq<Option<K>>, es: seq<E>, n: nat)
    requires n <= |ks| == |es| && forall m :: 0 <= m < n ==> ks[m].Some?
    ensures Keyed(ks, es, n) == es[..n]
  {
    if n > 0 {
      KeyedIsAll(ks, es, n - 1);
    }
  }

  /** The series hold every (label, value) pair of every item exactly once. */
  lemma {:induction false} SeriesHoldAllPairs(items: seq<MetricItem>)
    ensures multiset(Concat(AllSeries(items).vals)) == multiset(FlatSamples(items, |items|))
  {
    var ks, es := FlatKeys(items, |items|), FlatSamples(items, |items|);
    AllPairsKeyed(items, |items|);
    KeyedIsAll(ks, es, |ks|);
    GroupConserves(ks, es, |ks|);
    assert es[..|ks|] == es;
  }

  lemma {:induction false} FlatMembers(items: seq<MetricItem>, n: nat, s: Sample)
    requires n <= |items|
    ensures s in FlatSamples(items, n) <==>
            s.item < n && exists m :: 0 <= m < |items[s.item].pairs|
                                      && s == Sample(s.item, items[s.item].pairs[m].value, items[s.item].time)
  {
    if n > 0 {
      FlatMembers(items, n - 1, s);
      var item := items[n - 1];
      var own := PairSamples(item, n - 1, |item.pairs|);
      if s in own {
        var m :| 0 <= m < |own| && own[m] == s;
      }
      if s.item == n - 1 && exists m :: 0 <= m < |item.pairs| && s == Sample(n - 1, item.pairs[m].value, item.time) {
        var m :| 0 <= m < |item.pairs| && s == Sample(n - 1, item.pairs[m].value, item.time);
        assert own[m] == s;
      }
    }
  }

  /** `s` is a pair of item `s.item` with this service and label. */
  ghost predicate PairUnder(items: seq<MetricItem>, key: SeriesKey, s: Sample) {
    && s.item < |items| && items[s.item].service == key.0
    && exists m :: 0 <= m < |items[s.item].pairs| && items[s.item].pairs[m].name == key.1
                   && s == Sample(s.item, items[s.item].pairs[m].value, items[s.item].time)
  }

  /** Every flattened sample is a pair under its key. */
  lemma {:induction false} FlatGives(items: seq<MetricItem>, n: nat, p: nat)
    requires n <= |items| && p < |FlatKeys(items, n)|
    ensures FlatKeys(items, n)[p].Some? && PairUnder(items, FlatKeys(items, n)[p].value, FlatSamples(items, n)[p])
  {
    var before := |FlatKeys(items, n - 1)|;
    if p < before {
      FlatGives(items, n - 1, p);
    } else {
      var item, m := items[n - 1], p - before;
      assert FlatKeys(items, n)[p] == PairKeys(item, |item.pairs|)[m];
      assert FlatSamples(items, n)[p] == PairSamples(item, n - 1, |item.pairs|)[m];
      assert item.pairs[m].name == FlatKeys(items, n)[p].value.1;
    }
  }

  /** Every pair is flattened. */
  lemma {:induction false} FlatHas(items: seq<MetricItem>, n: nat, i: nat, m: nat) returns (p: nat)
    requires i < n <= |items| && m < |items[i].pairs|
    ensures p < |FlatKeys(items, n)| && FlatKeys(items, n)[p] == Some((items[i].service, items[i].pairs[m].name))
    ensures FlatSamples(items, n)[p] == Sample(i, items[i].pairs[m].value, items[i].time)
  {
    if i == n - 1 {
      p := |FlatKeys(items, n - 1)| + m;
    } else {
      p := FlatHas(items, n - 1, i, m);
    }
  }

  /** A series holds exactly the pairs of its service and label. */
  lemma {:induction false} SeriesAreExact(items: seq<MetricItem>, j: nat, s: Sample)
    requires j < |AllSeries(items).keys|
    ensures s in AllSeries(items).vals[j] <==> PairUnder(items, AllSeries(items).keys[j], s)
  {
    var key := AllSeries(items).keys[j];
    var ks, es := FlatKeys(items, |items|), FlatSamples(items, |items|);
    GroupLists(ks, es, |ks|);
    UnderMembers(ks, es, key, |ks|, s);
    if s in Under(ks, es, key, |ks|) {
      var p :| 0 <= p < |ks| && ks[p] == Some(key) && es[p] == s;
      FlatGives(items, |items|, p);
    }
    if PairUnder(items, key, s) {
      var m :| 0 <= m < |items[s.item].pairs| && items[s.item].pairs[m].name == key.1
               && s == Sample(s.item, items[s.item].pairs[m].value, items[s.item].time);
      var p := FlatHas(items, |items|, s.item, m);
    }
  }

  /** Series have different names, and every pair has one. */
  lemma {:induction false} SeriesAreDistinct(items: seq<MetricItem>, i: nat, m: nat)
    requires i < |items| && m < |items[i].pairs|
    ensures Distinct(AllSeries(items).keys) && (items[i].service, items[i].pairs[m].name) in AllSeries(items).keys
  {
    var ks, es := FlatKeys(items, |items|), FlatSamples(items, |items|);
    GroupLists(ks, es, |ks|);
    var p := FlatHas(items, |items|, i, m);
  }

  lemma {:induction false} MixedUpToConcat(vals: seq<seq<Sample>>, trigger: Option<Stamp>, n: nat)
    requires n <= |vals|
    ensures MixedUpTo(vals, trigger, n) <==> exists s :: s in Concat(vals[..n]) && !Comparable(trigger, s.time)
  {
    if n > 0 {
      MixedUpToConcat(vals, trigger, n - 1);
      ConcatSnoc(vals[..n - 1], vals[n - 1]);
      PrefixNext(vals, n - 1);
      var pts := vals[n - 1];
      MixedMeans(pts, trigger, |pts|);
      if i :| 0 <= i < |pts| && !Comparable(trigger, pts[i].time) {
        assert pts[i] in pts;
      }
    }
  }

  /** A parsed item's time and the trigger's are one naive, one aware. */
  ghost predicate ZonesDiffer(items: seq<MetricItem>, trigger: Option<Stamp>) {
    trigger.Some?
    && exists i :: 0 <= i < |items| && items[i].pairs != []
                   && items[i].time.Some? && items[i].time.value.aware != trigger.value.aware
  }

  /** The compressor and the selector fail on the same batches: a parsed item whose zone differs from the trigger's. */
  lemma SameZoneFailure(items: seq<MetricItem>, trigger: Option<Stamp>)
    ensures MixedAmong(AllSeries(items).vals, trigger) <==> ZonesDiffer(items, trigger)
    ensures MixedWithin(items, trigger, |items|) <==> ZonesDiffer(items, trigger)
  {
    var vals := AllSeries(items).vals;
    var c := Concat(vals);
    SeriesHoldAllPairs(items);
    SamePermElements(c, FlatSamples(items, |items|));
    MixedUpToConcat(vals, trigger, |vals|);
    assert vals[..|vals|] == vals;
    if s :| s in c && !Comparable(trigger, s.time) {
      FlatMembers(items, |items|, s);
      assert MixedItem(trigger, items[s.item]);
    }
    if i :| 0 <= i < |items| && MixedItem(trigger, items[i]) {
      var s := Sample(i, items[i].pairs[0].value, items[i].time);
      FlatMembers(items, |items|, s);
      assert s in c && !Comparable(trigger, s.time);
    }
    if ZonesDiffer(items, trigger) {
      var i :| 0 <= i < |items| && items[i].pairs != []
               && items[i].time.Some? && items[i].time.value.aware != trigger.value.aware;
      assert MixedItem(trigger, items[i]);
    }
  }

  /** One naive sample under an aware trigger fails grading and table alike, though the selector's time key orders it. */
  lemma NaiveSampleFails(items: seq<MetricItem>, trigger: Option<Stamp>, v: real, at: int, when: int)
    requires items == [MetricItem("api", [Pair("cpu", v)], Some(Stamp(at, false)))] && trigger == Some(Stamp(when, true))
    ensures Mixed(Metrics(items, trigger)) && MixedAmong(AllSeries(items).vals, trigger)
    ensures Chron(items[0].time) == at
  {
    assert MixedItem(trigger, items[0]);
    SameZoneFailure(items, trigger);
  }

  // ------------------------------------------------------------------ one series

  /** A series splits into baseline and incident samples without loss. */
  lemma SplitIsExact(trigger: Option<Stamp>, pts: seq<Sample>)
    ensures multiset(Baseline(trigger, pts)) + multiset(Incident(trigger, pts)) == multiset(pts)
    ensures forall s :: s in Baseline(trigger, pts) <==> s in pts && Precedes(s.time, trigger)
    ensures forall s :: s in Incident(trigger, pts) <==> s in pts && !Precedes(s.time, trigger)
  {
    FilterSplits(Early(trigger), pts);
    FilterMembers(Early(trigger), pts);
    FilterMembers(Not(Early(trigger)), pts);
  }

  /** The values of a series before the trigger. */
  function ValuesBefore(trigger: Option<Stamp>, pts: seq<Sample>): seq<real> {
    if pts == [] then []
    else
      var last := pts[|pts| - 1];
      ValuesBefore(trigger, pts[..|pts| - 1]) + (if Precedes(last.time, trigger) then [last.value] else [])
  }

  /** Some sample of the series deviates. */
  ghost predicate Troubled(trigger: Option<Stamp>, pts: seq<Sample>) {
    exists k :: 0 <= k < |pts| && Deviates(trigger, pts, pts[k])
  }

  /** A sample that does not precede the trigger and strays from the series' own baseline. */
  predicate Deviates(trigger: Option<Stamp>, pts: seq<Sample>, s: Sample) {
    !Precedes(s.time, trigger) && Outlying(ValuesBefore(trigger, pts), s.value)
  }

  function Deviating(trigger: Option<Stamp>, pts: seq<Sample>): Sample -> bool {
    (s: Sample) => Deviates(trigger, pts, s)
  }

  lemma {:induction false} BaselineValues(trigger: Option<Stamp>, pts: seq<Sample>)
    ensures Values(Baseline(trigger, pts)) == ValuesBefore(trigger, pts)
  {
    if pts != [] {
      BaselineValues(trigger, pts[..|pts| - 1]);
    }
  }

  /** The deviants of a row are the deviating samples of its series, in input order. */
  lemma {:induction false} DeviantsAreDeviating(key: SeriesKey, pts: seq<Sample>, trigger: Option<Stamp>)
    ensures Deviants(RowOf(key, pts, trigger)) == Filter(Deviating(trigger, pts), pts)
  {
    var base := Baseline(trigger, pts);
    var incid := Incident(trigger, pts);
    BaselineValues(trigger, pts);
    if base == [] {
      NothingPasses(Deviating(trigger, pts), pts);
    } else {
      var straying := Straying(Mean(Values(base)), Variance(Values(base)));
      forall i | 0 <= i < |pts|
        ensures Deviating(trigger, pts)(pts[i]) <==> Not(Early(trigger))(pts[i]) && straying(pts[i])
      {
        StraysByTotals(Values(base), pts[i].value);
      }
      FilterTwice(Not(Early(trigger)), straying, Deviating(trigger, pts), pts);
      assert incid == [] ==> Filter(straying, incid) == [];
    }
  }

  lemma {:induction false} NothingPasses<T>(p: T -> bool, s: seq<T>)
    requires forall i :: 0 <= i < |s| ==> !p(s[i])
    ensures Filter(p, s) == []
  {
    if s != [] {
      NothingPasses(p, s[..|s| - 1]);
    }
  }

  /** The onset is the first sample in input order that deviates. */
  lemma OnsetIsFirst(key: SeriesKey, pts: seq<Sample>, trigger: Option<Stamp>)
    ensures var row := RowOf(key, pts, trigger);
      Onset(row).Some? <==> Troubled(trigger, pts)
    ensures var row := RowOf(key, pts, trigger);
      Onset(row).Some? ==> exists k :: 0 <= k < |pts| && pts[k] == Onset(row).value && Deviates(trigger, pts, pts[k])
                                       && forall j :: 0 <= j < k ==> !Deviates(trigger, pts, pts[j])
  {
    DeviantsAreDeviating(key, pts, trigger);
    var p := Deviating(trigger, pts);
    FilterMembers(p, pts);
    if Filter(p, pts) != [] {
      var k := FilterFirst(p, pts);
    }
    forall k | 0 <= k < |pts| && Deviates(trigger, pts, pts[k]) ensures Filter(p, pts) != [] {
      assert pts[k] in pts && p(pts[k]);
      assert pts[k] in Filter(p, pts);
    }
  }

  lemma DivisionKeepsOrder(a: real, b: real, unit: real)
    requires unit > 0.0
    ensures a > b <==> a / unit > b / unit
    ensures a > 0.0 <==> a / unit > 0.0
  {
    assert a == (a / unit) * unit && b == (b / unit) * unit;
  }

  /** The farthest deviant is first among those of greatest distance, and the score is its scaled distance. */
  lemma {:induction false} FarthestIsGreatest(devs: seq<Sample>, mu: real, unit: real)
    requires devs != [] && unit > 0.0
    ensures Greatest(devs, mu, unit) == Off(Farthest(devs, mu), mu) / unit
    ensures exists k :: 0 <= k < |devs| && devs[k] == Farthest(devs, mu) && forall j :: 0 <= j < k ==> Off(devs[j], mu) < Off(devs[k], mu)
    ensures forall j :: 0 <= j < |devs| ==> Off(devs[j], mu) <= Off(Farthest(devs, mu), mu)
  {
    var n := |devs| - 1;
    if n > 0 {
      FarthestIsGreatest(devs[..n], mu, unit);
      var p := Farthest(devs[..n], mu);
      DivisionKeepsOrder(Off(devs[n], mu), Off(p, mu), unit);
      var k :| 0 <= k < n && devs[..n][k] == p && forall j :: 0 <= j < k ==> Off(devs[..n][j], mu) < Off(devs[..n][k], mu);
      forall j | 0 <= j < n ensures Off(devs[j], mu) <= Off(p, mu) {
        assert devs[j] == devs[..n][j];
      }
      var w := if Off(devs[n], mu) > Off(p, mu) then n else k;
      forall j | 0 <= j < w ensures Off(devs[j], mu) < Off(devs[w], mu) {
        assert devs[j] == devs[..n][j];
      }
    }
  }

  lemma UnitPositive(base: seq<real>)
    ensures Unit(Variance(base)) > 0.0
  {
    VarianceNonNegative(base);
  }

  lemma ProductPositive(a: real, b: real, q: real)
    requires a > 0.0 && b > 0.0 && q == a * b
    ensures q > 0.0
  {
  }

  lemma SquarePositive(d: real)
    requires d != 0.0
    ensures Square(d) > 0.0
  {
    if d > 0.0 {
      ProductPositive(d, d, Square(d));
    } else {
      ProductPositive(-d, -d, Square(d));
    }
  }

  lemma StraysMeansOff(s: Sample, mu: real, variance: real)
    requires variance >= 0.0 && Strays(s.value, mu, variance)
    ensures Off(s, mu) > 0.0
  {
    if s.value - mu != 0.0 {
      SquarePositive(s.value - mu);
    }
  }

  lemma PeakByMean(key: SeriesKey, pts: seq<Sample>, trigger: Option<Stamp>)
    ensures var row := RowOf(key, pts, trigger);
      Peak(row).Some? <==> Deviants(row) != []
    ensures var row := RowOf(key, pts, trigger); var base := Values(row.base);
      Deviants(row) != [] ==>
        && base != []
        && Score(row) == Off(Peak(row).value, Mean(base)) / Unit(Variance(base))
        && (forall j :: 0 <= j < |Deviants(row)| ==> Off(Deviants(row)[j], Mean(base)) <= Off(Peak(row).value, Mean(base)))
        && (exists k :: 0 <= k < |Deviants(row)| && Deviants(row)[k] == Peak(row).value
                        && forall j :: 0 <= j < k ==> Off(Deviants(row)[j], Mean(base)) < Off(Deviants(row)[k], Mean(base)))
  {
    var row := RowOf(key, pts, trigger);
    if Deviants(row) != [] {
      var base := Values(row.base);
      UnitPositive(base);
      FarthestIsGreatest(Deviants(row), Mean(base), Unit(Variance(base)));
    }
  }

  /** Distances from the mean compare as gaps do. */
  lemma OffByGap(base: seq<real>, a: Sample, b: Sample)
    requires base != []
    ensures Off(a, Mean(base)) < Off(b, Mean(base)) <==> Gap(base, a.value) < Gap(base, b.value)
  {
    GapByMean(base, a.value);
    GapByMean(base, b.value);
    ScaledOrder(|base| as real, Off(b, Mean(base)), Off(a, Mean(base)), Gap(base, b.value), Gap(base, a.value));
  }

  /** The score on plain sums: the peak's gap over the spread, or over n squared when the baseline is constant. */
  predicate ScoredBy(n: real, spread: real, gap: real, score: real) {
    if spread != 0.0 then score * spread == gap else n * (n * score) == gap
  }

  lemma QuotientScales(n: real, off: real, variance: real, score: real)
    requires variance != 0.0 && score == off / variance
    ensures score * (n * (n * variance)) == n * (n * off)
  {
    assert score * variance == off;
    assert n * (n * (score * variance)) == score * (n * (n * variance));
  }

  lemma ScoreScales(n: real, off: real, variance: real, spread: real, gap: real, score: real)
    requires n > 0.0 && Scaled(n, variance, spread) && Scaled(n, off, gap) && score == off / Unit(variance)
    ensures ScoredBy(n, spread, gap, score)
  {
    ScaledOrder(n, variance, 0.0, spread, 0.0);
    if variance != 0.0 {
      QuotientScales(n, off, variance, score);
    }
  }

  lemma ScoreByGap(base: seq<real>, p: Sample, score: real)
    requires base != [] && score == Off(p, Mean(base)) / Unit(Variance(base))
    ensures ScoredBy(|base| as real, Spread(base), Gap(base, p.value), score)
  {
    GapByMean(base, p.value);
    VarianceByTotals(base);
    ScoreScales(|base| as real, Off(p, Mean(base)), Variance(base), Spread(base), Gap(base, p.value), score);
  }

  /** The peak is the first deviating sample of greatest gap, and the score measures its gap. */
  lemma {:induction false} PeakIsGreatest(key: SeriesKey, pts: seq<Sample>, trigger: Option<Stamp>)
    ensures var row := RowOf(key, pts, trigger);
      Peak(row).Some? <==> Troubled(trigger, pts)
    ensures var row := RowOf(key, pts, trigger); var base := ValuesBefore(trigger, pts);
      Peak(row).Some? ==>
        && ScoredBy(|base| as real, Spread(base), Gap(base, Peak(row).value.value), Score(row))
        && (forall j :: 0 <= j < |Deviants(row)| ==> Gap(base, Deviants(row)[j].value) <= Gap(base, Peak(row).value.value))
        && (exists k :: 0 <= k < |Deviants(row)| && Deviants(row)[k] == Peak(row).value
                        && forall j :: 0 <= j < k ==> Gap(base, Deviants(row)[j].value) < Gap(base, Deviants(row)[k].value))
  {
    var row := RowOf(key, pts, trigger);
    OnsetIsFirst(key, pts, trigger);
    PeakByMean(key, pts, trigger);
    if Deviants(row) != [] {
      var base := ValuesBefore(trigger, pts);
      BaselineValues(trigger, pts);
      ScoreByGap(base, Peak(row).value, Score(row));
      forall a: Sample, b: Sample
        ensures Off(a, Mean(base)) < Off(b, Mean(base)) <==> Gap(base, a.value) < Gap(base, b.value)
      {
        OffByGap(base, a, b);
      }
    }
  }

  /** The score is positive exactly for series with a deviating sample, and never negative. */
  lemma ScoreTellsDeviants(key: SeriesKey, pts: seq<Sample>, trigger: Option<Stamp>)
    ensures var row := RowOf(key, pts, trigger);
      Score(row) >= 0.0 && (Score(row) > 0.0 <==> Troubled(trigger, pts))
  {
    OnsetIsFirst(key, pts, trigger);
    ScoreIsPositive(key, pts, trigger);
  }

  lemma ScoreIsPositive(key: SeriesKey, pts: seq<Sample>, trigger: Option<Stamp>)
    ensures var row := RowOf(key, pts, trigger); Score(row) >= 0.0 && (Score(row) > 0.0 <==> Deviants(row) != [])
  {
    var row := RowOf(key, pts, trigger);
    if Deviants(row) != [] {
      var base := Values(row.base);
      var mu, variance := Mean(base), Variance(base);
      FilterMembers(Straying(mu, variance), row.incid);
      var d := Deviants(row)[0];
      assert d in Deviants(row);
      VarianceNonNegative(base);
      StraysMeansOff(d, mu, variance);
      PeakByMean(key, pts, trigger);
      DivisionKeepsOrder(Off(Peak(row).value, mu), 0.0, Unit(variance));
    }
  }

  // ------------------------------------------------------------------ the table

  lemma RowLessWeak(dom: set<Row>)
    ensures Weak(RowLess, dom)
  {
    forall x, y | x in dom && y in dom && RowLess(x, y) ensures !RowLess(y, x) {
      StringOrder(x.service, y.service);
      StringOrder(x.name, y.name);
    }
    forall x, y, z | x in dom && y in dom && z in dom && RowLess(x, z) ensures RowLess(x, y) || RowLess(y, z) {
      RowChain(x, y, z);
    }
  }

  lemma RowChain(x: Row, y: Row, z: Row)
    requires RowLess(x, z)
    ensures RowLess(x, y) || RowLess(y, z)
  {
    StringOrder(x.service, y.service);
    StringOrder(y.service, z.service);
    if StringLess(x.service, z.service) {
      StringChain(x.service, y.service, z.service);
    }
    if StringLess(x.name, z.name) {
      StringChain(x.name, y.name, z.name);
    }
  }

  /** Each line of the table stands for one series. */
  lemma RowHasSeries(items: seq<MetricItem>, trigger: Option<Stamp>, x: nat) returns (j: nat)
    requires x < |Table(items, trigger)|
    ensures var d := AllSeries(items);
      j < |d.keys| && Table(items, trigger)[x] == RowOf(d.keys[j], d.vals[j], trigger)
  {
    var d := AllSeries(items);
    var rows, t := Rows(d, trigger), Table(items, trigger);
    SortPerm(RowLess, rows);
    SamePermElements(t, rows);
    ForEachAt(RowFor(trigger), d.keys, d.vals, |d.keys|);
    assert t[x] in t;
    j :| 0 <= j < |rows| && rows[j] == t[x];
  }

  /** Each series has one line in the table. */
  lemma SeriesHasRow(items: seq<MetricItem>, trigger: Option<Stamp>, j: nat)
    requires j < |AllSeries(items).keys|
    ensures RowOf(AllSeries(items).keys[j], AllSeries(items).vals[j], trigger) in Table(items, trigger)
    ensures |Table(items, trigger)| == |AllSeries(items).keys|
    ensures var key := AllSeries(items).keys[j]; var row := RowOf(key, AllSeries(items).vals[j], trigger);
      row.service == (if key.0 == "" then "?" else key.0) && row.name == key.1
  {
    var d := AllSeries(items);
    var rows := Rows(d, trigger);
    SortPerm(RowLess, rows);
    SamePermElements(Table(items, trigger), rows);
    ForEachAt(RowFor(trigger), d.keys, d.vals, |d.keys|);
    assert rows[j] in rows;
  }

  lemma TableAscends(items: seq<MetricItem>, trigger: Option<Stamp>)
    ensures Ascending(RowLess, Table(items, trigger))
  {
    var rows := Rows(AllSeries(items), trigger);
    var dom := set r | r in rows;
    RowLessWeak(dom);
    WithinItself(rows);
    SortAscends(RowLess, rows, dom);
  }

  lemma ScoreDecides(a: Row, b: Row)
    requires Score(a) > Score(b)
    ensures RowLess(a, b)
  {
  }

  /** In a sorted list an element below another stands before it. */
  lemma SmallerStandsFirst<T>(less: (T, T) -> bool, s: seq<T>, x: nat, y: nat)
    requires Ascending(less, s) && x < |s| && y < |s| && less(s[x], s[y]) && !less(s[x], s[x])
    ensures x < y
  {
  }

  /** Series with a deviating sample are listed before every series without one. */
  lemma AnomalousSeriesFirst(items: seq<MetricItem>, trigger: Option<Stamp>, i: nat, j: nat, x: nat, y: nat)
    requires var d := AllSeries(items); i < |d.keys| && j < |d.keys| && Troubled(trigger, d.vals[i]) && !Troubled(trigger, d.vals[j])
    requires var d, t := AllSeries(items), Table(items, trigger);
      x < |t| && y < |t| && t[x] == RowOf(d.keys[i], d.vals[i], trigger) && t[y] == RowOf(d.keys[j], d.vals[j], trigger)
    ensures x < y
  {
    var d, t := AllSeries(items), Table(items, trigger);
    ScoreTellsDeviants(d.keys[i], d.vals[i], trigger);
    ScoreTellsDeviants(d.keys[j], d.vals[j], trigger);
    ScoreDecides(t[x], t[y]);
    RowLessIrreflexive(t[x]);
    TableAscends(items, trigger);
    SmallerStandsFirst(RowLess, t, x, y);
  }

  /** Lines descend by score; equal scores ascend by displayed service, then by label. */
  lemma TableOrder(items: seq<MetricItem>, trigger: Option<Stamp>, x: nat, y: nat)
    requires x < y < |Table(items, trigger)|
    ensures var a, b := Table(items, trigger)[x], Table(items, trigger)[y];
      Score(a) > Score(b)
      || (Score(a) == Score(b)
          && (Alphabetical(a.service, b.service)
              || (a.service == b.service && (Alphabetical(a.name, b.name) || a.name == b.name))))
  {
    var a, b := Table(items, trigger)[x], Table(items, trigger)[y];
    TableAscends(items, trigger);
    StringOrder(a.service, b.service);
    StringOrder(a.name, b.name);
    StringLessMeans(a.service, b.service);
    StringLessMeans(a.name, b.name);
  }

  lemma RowLessIrreflexive(a: Row)
    ensures !RowLess(a, a)
  {
    StringOrder(a.service, a.service);
    StringOrder(a.name, a.name);
  }

  // ------------------------------------------------------------------ conservation

  function Points(r: Row): int {
    |r.base| + |r.incid|
  }

  function PairCount(i: MetricItem): int {
    |i.pairs|
  }

  lemma {:induction false} FlatLength(items: seq<MetricItem>, n: nat)
    requires n <= |items|
    ensures |FlatSamples(items, n)| == SumBy(PairCount, items[..n])
  {
    if n > 0 {
      FlatLength(items, n - 1);
      SumSnoc(PairCount, items[..n - 1], items[n - 1]);
      assert items[..n] == items[..n - 1] + [items[n - 1]];
    }
  }

  /** A row has as many points as its series. */
  lemma SamePoints(key: SeriesKey, pts: seq<Sample>, trigger: Option<Stamp>)
    ensures Points(RowOf(key, pts, trigger)) == |pts|
  {
    FilterSplits(Early(trigger), pts);
  }

  /** What a list of series contributes, when each contributes its length. */
  lemma {:induction false} EachCounts<K, V, R>(f: (K, seq<V>) -> R, size: R -> int, ks: seq<K>, vs: seq<seq<V>>, n: nat)
    requires n <= |ks| == |vs| && forall j :: 0 <= j < n ==> size(f(ks[j], vs[j])) == |vs[j]|
    ensures SumBy(size, ForEach(f, ks, vs, n)) == |Concat(vs[..n])|
  {
    if n > 0 {
      EachCounts(f, size, ks, vs, n - 1);
      SumSnoc(size, ForEach(f, ks, vs, n - 1), f(ks[n - 1], vs[n - 1]));
      ConcatSnoc(vs[..n - 1], vs[n - 1]);
      PrefixNext(vs, n - 1);
    }
  }

  /** The table accounts for every pair: baseline and incident counts add up to the number of pairs. */
  lemma {:induction false} TableConserves(items: seq<MetricItem>, trigger: Option<Stamp>)
    ensures SumBy(Points, Table(items, trigger)) == SumBy(PairCount, items)
  {
    var d := AllSeries(items);
    var rows := Rows(d, trigger);
    SortPerm(RowLess, rows);
    SumPerm(Points, Table(items, trigger), rows);
    forall j | 0 <= j < |d.keys| ensures Points(RowFor(trigger)(d.keys[j], d.vals[j])) == |d.vals[j]| {
      SamePoints(d.keys[j], d.vals[j], trigger);
    }
    EachCounts(RowFor(trigger), Points, d.keys, d.vals, |d.keys|);
    assert d.vals[..|d.keys|] == d.vals;
    SeriesHoldAllPairs(items);
    SamePermElements(Concat(d.vals), FlatSamples(items, |items|));
    FlatLength(items, |items|);
    assert items[..|items|] == items;
  }

  /** The items without a pair pass through, once each and in input order. */
  lemma {:induction false} UnparsedPassOnce(items: seq<MetricItem>, n: nat)
    requires n <= |items|
    ensures forall i: nat :: i in UnparsedItems(items, n) <==> i < n && items[i].pairs == []
    ensures forall a, b :: 0 <= a < b < |UnparsedItems(items, n)| ==> UnparsedItems(items, n)[a] < UnparsedItems(items, n)[b]
  {
    if n > 0 {
      UnparsedPassOnce(items, n - 1);
      var u := UnparsedItems(items, n - 1);
      forall a | 0 <= a < |u| ensures u[a] < n - 1 {
        assert u[a] in u;
      }
    }
  }
}
