/** The selector's grades and the compressor's deviants are the same judgement. */
module MetricAgreement {
  import opened Wrappers
  import opened Sorting
  import opened PyDict
  import opened Sums
  import opened Signals
  import opened AnomalyCriterion
  import opened SignalSelector
  import opened MetricCompression
  import opened MetricTheorems
  import opened ModalityTheorems

  /**
   No item carries this series in another place than its first pair: the selector looks at first
   pairs only. Items of one pair, or none, always satisfy it.
   */
  predicate OnlyLeads(items: seq<MetricItem>, key: SeriesKey) {
    forall i, m :: 0 <= i < |items| && 1 <= m < |items[i].pairs| ==> (items[i].service, items[i].pairs[m].name) != key
  }

  function Lead(items: seq<MetricItem>, i: nat): Sample
    requires i < |items| && items[i].pairs != []
  {
    Sample(i, items[i].pairs[0].value, items[i].time)
  }

  function LeadKey(items: seq<MetricItem>, i: nat): SeriesKey
    requires i < |items| && items[i].pairs != []
  {
    (items[i].service, items[i].pairs[0].name)
  }

  lemma {:induction false} UnderPrefix<K, E>(ks: seq<Option<K>>, es: seq<E>, ls: seq<Option<K>>, fs: seq<E>, k: K, n: nat)
    requires n <= |ks| == |es| && |ls| == |fs| && ks <= ls && es <= fs
    ensures Under(ls, fs, k, n) == Under(ks, es, k, n)
  {
    if n > 0 {
      UnderPrefix(ks, es, ls, fs, k, n - 1);
    }
  }

  lemma {:induction false} UnderSnoc<K, E>(ks: seq<Option<K>>, es: seq<E>, l: K, e: E, k: K)
    requires |ks| == |es|
    ensures Under(ks + [Some(l)], es + [e], k, |ks| + 1) == Under(ks, es, k, |ks|) + (if l == k then [e] else [])
  {
    UnderPrefix(ks, es, ks + [Some(l)], es + [e], k, |ks|);
  }

  /** What one item adds to a series it can only lead. */
  lemma {:induction false} ItemAdds(ks: seq<Option<SeriesKey>>, es: seq<Sample>, item: MetricItem, i: nat, m: nat, key: SeriesKey)
    requires |ks| == |es| && 1 <= m <= |item.pairs|
    requires forall q :: 1 <= q < |item.pairs| ==> (item.service, item.pairs[q].name) != key
    ensures Under(ks + PairKeys(item, m), es + PairSamples(item, i, m), key, |ks| + m)
            == Under(ks, es, key, |ks|)
               + (if (item.service, item.pairs[0].name) == key then [Sample(i, item.pairs[0].value, item.time)] else [])
  {
    var ls, fs := ks + PairKeys(item, m - 1), es + PairSamples(item, i, m - 1);
    var l := (item.service, item.pairs[m - 1].name);
    var e := Sample(i, item.pairs[m - 1].value, item.time);
    PairSnoc(item, i, m - 1);
    assert ks + PairKeys(item, m) == ls + [Some(l)];
    assert es + PairSamples(item, i, m) == fs + [e];
    UnderSnoc(ls, fs, l, e, key);
    if m == 1 {
      assert ls == ks && fs == es;
    } else {
      ItemAdds(ks, es, item, i, m - 1, key);
    }
  }

  function ToPoint(trigger: Option<Stamp>): Sample -> Point {
    (s: Sample) => Point(s.item, s.value, IsBase(trigger, s.time))
  }

  function Series(items: seq<MetricItem>, key: SeriesKey, n: nat): seq<Sample>
    requires n <= |items|
  {
    Under(FlatKeys(items, n), FlatSamples(items, n), key, |FlatKeys(items, n)|)
  }

  lemma SeriesNext(items: seq<MetricItem>, key: SeriesKey, n: nat)
    requires OnlyLeads(items, key) && n < |items|
    ensures Series(items, key, n + 1) == Series(items, key, n) +
      (if items[n].pairs != [] && LeadKey(items, n) == key then [Lead(items, n)] else [])
  {
    var item := items[n];
    if item.pairs == [] {
      assert FlatKeys(items, n + 1) == FlatKeys(items, n) && FlatSamples(items, n + 1) == FlatSamples(items, n);
    } else {
      ItemAdds(FlatKeys(items, n), FlatSamples(items, n), item, n, |item.pairs|, key);
    }
  }

  /** Both programs see the same points in a series. */
  lemma {:induction false} SameSeries(items: seq<MetricItem>, trigger: Option<Stamp>, key: SeriesKey, n: nat)
    requires n <= |items| && OnlyLeads(items, key)
    ensures Under(MetricKeys(items), MetricPoints(items, trigger), key, n) == MapSeq(ToPoint(trigger), Series(items, key, n))
  {
    if n > 0 {
      SameSeries(items, trigger, key, n - 1);
      SeriesNext(items, key, n - 1);
    }
  }

  /** Both programs compute the same baseline. */
  lemma {:induction false} SameBaseline(trigger: Option<Stamp>, pts: seq<Sample>)
    ensures BaseValues(MapSeq(ToPoint(trigger), pts)) == Values(Baseline(trigger, pts))
  {
    if pts != [] {
      var n := |pts| - 1;
      SameBaseline(trigger, pts[..n]);
      assert MapSeq(ToPoint(trigger), pts)[..n] == MapSeq(ToPoint(trigger), pts[..n]);
    }
  }

  /**
   One judgement: for a series that items only lead with, the selector grades an item as prior exactly
   when the compressor lists its sample among the deviants of that series.
   */
  lemma SelectorAgrees(items: seq<MetricItem>, trigger: Option<Stamp>, i: nat) returns (j: nat)
    requires i < |items| && items[i].pairs != [] && OnlyLeads(items, LeadKey(items, i))
    ensures var d := AllSeries(items);
      && j < |d.keys| && d.keys[j] == LeadKey(items, i)
      && (Anomalous(items, trigger, i) <==> Lead(items, i) in Deviants(RowOf(d.keys[j], d.vals[j], trigger)))
  {
    var key := LeadKey(items, i);
    var m := FlatHas(items, |items|, i, 0);
    j := ListOf(FlatKeys(items, |items|), FlatSamples(items, |items|), key, m);
    var pts := AllSeries(items).vals[j];
    SameSeries(items, trigger, key, |items|);
    SameBaseline(trigger, pts);
    GradedByCriterion(items, trigger, i);
    BaselineIsLead(items, trigger, key, |items|);
    BaselineValues(trigger, pts);
    DeviantsAreDeviating(key, pts, trigger);
    FilterMembers(Deviating(trigger, pts), pts);
  }
}
