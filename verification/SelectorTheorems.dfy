/** What a selection contains, for every batch, cap and clustering. */
module SelectorTheorems {
  import opened Wrappers
  import opened Sorting
  import opened PyDict
  import opened Signals
  import opened RoundRobin
  import opened SignalSelector

  // ------------------------------------------------------------------ permutations

  /** Equal elements have equal images. */
  ghost predicate Images<A, B>(a: seq<A>, fa: seq<B>, b: seq<A>, fb: seq<B>)
    requires |fa| == |a| && |fb| == |b|
  {
    forall i, j :: 0 <= i < |a| && 0 <= j < |b| && a[i] == b[j] ==> fa[i] == fb[j]
  }

  lemma ImagesWithout<A, B>(a: seq<A>, fa: seq<B>, b: seq<A>, fb: seq<B>, m: nat)
    requires |fa| == |a| && |fb| == |b| && a != [] && m < |b| && Images(a, fa, b, fb)
    ensures Images(a[1..], fa[1..], Without(b, m), Without(fb, m))
  {
    forall i, j | 0 <= i < |a| - 1 && 0 <= j < |b| - 1 && a[1..][i] == Without(b, m)[j]
      ensures fa[1..][i] == Without(fb, m)[j]
    {
      var k := if j < m then j else j + 1;
      assert a[i + 1] == b[k];
    }
  }

  /** Permuting the elements permutes the images. */
  lemma {:induction false} ImagePerm<A, B>(a: seq<A>, fa: seq<B>, b: seq<A>, fb: seq<B>)
    requires multiset(a) == multiset(b) && |fa| == |a| && |fb| == |b| && Images(a, fa, b, fb)
    ensures multiset(fa) == multiset(fb)
  {
    SamePermElements(a, b);
    if a != [] {
      assert a[0] in b;
      var m :| 0 <= m < |b| && b[m] == a[0];
      assert fa[0] == fb[m];
      RemoveBoth(a, b, m);
      RemoveBoth(fa, fb, m);
      ImagesWithout(a, fa, b, fb, m);
      ImagePerm(a[1..], fa[1..], Without(b, m), Without(fb, m));
    }
  }

  lemma MapPerm<A, B>(f: A -> B, a: seq<A>, b: seq<A>)
    requires multiset(a) == multiset(b)
    ensures multiset(MapSeq(f, a)) == multiset(MapSeq(f, b))
  {
    ImagePerm(a, MapSeq(f, a), b, MapSeq(f, b));
  }

  lemma MapSnoc<A, B>(f: A -> B, s: seq<A>, x: A)
    ensures MapSeq(f, s + [x]) == MapSeq(f, s) + [f(x)]
  {
  }

  lemma {:induction false} ConcatSplit<T>(ss: seq<seq<T>>, m: nat)
    requires m < |ss|
    ensures multiset(Concat(ss)) == multiset(ss[m]) + multiset(Concat(Without(ss, m)))
  {
    if m == 0 {
      assert Without(ss, 0) == ss[1..];
    } else {
      ConcatSplit(ss[1..], m - 1);
      assert Without(ss, m)[1..] == Without(ss[1..], m - 1);
    }
  }

  lemma {:induction false} ConcatPerm<T>(a: seq<seq<T>>, b: seq<seq<T>>)
    requires multiset(a) == multiset(b)
    ensures multiset(Concat(a)) == multiset(Concat(b))
  {
    SamePermElements(a, b);
    if a != [] {
      assert a[0] in b;
      var m :| 0 <= m < |b| && b[m] == a[0];
      RemoveAt(b, m);
      assert a == [a[0]] + a[1..];
      ConcatPerm(a[1..], Without(b, m));
      ConcatSplit(b, m);
    }
  }

  /** Concatenating lists that are permutations of each other, place by place. */
  lemma {:induction false} ConcatPointwise<T>(a: seq<seq<T>>, b: seq<seq<T>>)
    requires |a| == |b| && forall j :: 0 <= j < |a| ==> multiset(a[j]) == multiset(b[j])
    ensures multiset(Concat(a)) == multiset(Concat(b))
  {
    if a != [] {
      ConcatPointwise(a[1..], b[1..]);
    }
  }

  lemma {:induction false} ConcatMap<A, B>(f: A -> B, ss: seq<seq<A>>, ts: seq<seq<B>>)
    requires |ss| == |ts| && forall j :: 0 <= j < |ss| ==> ts[j] == MapSeq(f, ss[j])
    ensures Concat(ts) == MapSeq(f, Concat(ss))
  {
    if ss != [] {
      ConcatMap(f, ss[1..], ts[1..]);
    }
  }

  lemma {:induction false} ConcatLength<T>(groups: seq<seq<T>>)
    ensures |Concat(groups)| == Total(groups)
  {
    if groups != [] {
      ConcatLength(groups[1..]);
    }
  }

  // ------------------------------------------------------------------ buckets partition the items

  function Indices(buckets: seq<seq<Entry>>): seq<nat> {
    MapSeq(EntryIdx, Concat(buckets))
  }

  /** Every item sits in exactly one bucket, once. */
  ghost predicate Partition(buckets: seq<seq<Entry>>, n: nat) {
    multiset(Indices(buckets)) == multiset(Range(n))
  }

  lemma RangeSnoc(n: nat)
    requires n > 0
    ensures Range(n) == Range(n - 1) + [n - 1]
  {
  }

  lemma {:induction false} AllKeyed<K, E>(ks: seq<Option<K>>, es: seq<E>, f: E -> nat, n: nat)
    requires n <= |ks| == |es|
    requires forall i :: 0 <= i < n ==> ks[i].Some? && f(es[i]) == i
    ensures MapSeq(f, Keyed(ks, es, n)) == Range(n)
  {
    if n > 0 {
      AllKeyed(ks, es, f, n - 1);
      RangeSnoc(n);
    }
  }

  lemma LogPartition(items: seq<LogItem>, clusters: seq<nat>)
    requires |clusters| == |items|
    ensures Partition(LogSpec(items, clusters), |items|) && NoneEmpty(LogSpec(items, clusters))
  {
    var n := |items|;
    GroupConserves(LogKeys(clusters), LogEntries(items), n);
    GroupLists(LogKeys(clusters), LogEntries(items), n);
    AllKeyed(LogKeys(clusters), LogEntries(items), EntryIdx, n);
    MapPerm(EntryIdx, Concat(LogSpec(items, clusters)), Keyed(LogKeys(clusters), LogEntries(items), n));
  }

  function SpanIdx(s: Span): nat {
    s.idx
  }

  lemma {:induction false} RankAllFacts(groups: seq<seq<Span>>)
    ensures |RankAll(groups)| == |groups|
    ensures forall j :: 0 <= j < |groups| ==> RankAll(groups)[j] == Ranked(Sort(SpanLess, groups[j]))
  {
    if groups != [] {
      RankAllFacts(groups[..|groups| - 1]);
    }
  }

  lemma {:induction false} RankedIndices(spans: seq<Span>)
    ensures multiset(MapSeq(EntryIdx, Ranked(Sort(SpanLess, spans)))) == multiset(MapSeq(SpanIdx, spans))
    ensures |Ranked(Sort(SpanLess, spans))| == |spans|
  {
    SortPerm(SpanLess, spans);
    MapPerm(SpanIdx, Sort(SpanLess, spans), spans);
    assert MapSeq(EntryIdx, Ranked(Sort(SpanLess, spans))) == MapSeq(SpanIdx, Sort(SpanLess, spans));
  }

  lemma {:induction false} RankAllIndices(groups: seq<seq<Span>>)
    requires NoneEmpty(groups)
    ensures multiset(Indices(RankAll(groups))) == multiset(MapSeq(SpanIdx, Concat(groups)))
    ensures NoneEmpty(RankAll(groups))
  {
    RankAllFacts(groups);
    var a := seq(|groups|, j requires 0 <= j < |groups| => MapSeq(EntryIdx, Ranked(Sort(SpanLess, groups[j]))));
    var b := seq(|groups|, j requires 0 <= j < |groups| => MapSeq(SpanIdx, groups[j]));
    forall j | 0 <= j < |groups| ensures multiset(a[j]) == multiset(b[j]) && RankAll(groups)[j] != [] {
      RankedIndices(groups[j]);
    }
    ConcatPointwise(a, b);
    ConcatMap(EntryIdx, RankAll(groups), a);
    ConcatMap(SpanIdx, groups, b);
  }

  lemma TracePartition(items: seq<TraceItem>)
    ensures Partition(TraceSpec(items), |items|) && NoneEmpty(TraceSpec(items))
  {
    var n := |items|;
    var vals := Group(TraceKeys(items), Spans(items), n).vals;
    GroupConserves(TraceKeys(items), Spans(items), n);
    GroupLists(TraceKeys(items), Spans(items), n);
    AllKeyed(TraceKeys(items), Spans(items), SpanIdx, n);
    MapPerm(SpanIdx, Concat(vals), Keyed(TraceKeys(items), Spans(items), n));
    RankAllIndices(vals);
  }

  function PointIdx(p: Point): nat {
    p.idx
  }

  function ParsedIds(items: seq<MetricItem>, trigger: Option<Stamp>, n: nat): seq<nat>
    requires n <= |items|
  {
    MapSeq(PointIdx, Keyed(MetricKeys(items), MetricPoints(items, trigger), n))
  }

  function UnparsedIds(items: seq<MetricItem>, n: nat): seq<nat>
    requires n <= |items|
  {
    MapSeq(EntryIdx, Unparsed(items, n))
  }

  /** Exactly one of two lists takes the index `k`. */
  predicate OneTakes(a: seq<nat>, b: seq<nat>, c: seq<nat>, d: seq<nat>, k: nat) {
    (c == a && d == b + [k]) || (c == a + [k] && d == b)
  }

  lemma ParsedNext(items: seq<MetricItem>, trigger: Option<Stamp>, n: nat)
    requires n < |items|
    ensures OneTakes(ParsedIds(items, trigger, n), UnparsedIds(items, n),
                     ParsedIds(items, trigger, n + 1), UnparsedIds(items, n + 1), n)
  {
    MapSnoc(EntryIdx, Unparsed(items, n), Entry(NORMAL, n));
    MapSnoc(PointIdx, Keyed(MetricKeys(items), MetricPoints(items, trigger), n), MetricPoint(items, trigger, n));
  }

  lemma GrowEither(a: seq<nat>, b: seq<nat>, c: seq<nat>, d: seq<nat>, all: seq<nat>, k: nat)
    requires multiset(a) + multiset(b) == multiset(all) && OneTakes(a, b, c, d, k)
    ensures multiset(c) + multiset(d) == multiset(all + [k])
  {
  }

  /** Two lists that start empty and take each index, one or the other, hold all indices. */
  lemma {:induction false} TakeInTurn(p: seq<seq<nat>>, u: seq<seq<nat>>, n: nat)
    requires n < |p| == |u| && p[0] == [] && u[0] == []
    requires forall k: nat :: k < n ==> OneTakes(p[k], u[k], p[k + 1], u[k + 1], k)
    ensures multiset(p[n]) + multiset(u[n]) == multiset(Range(n))
  {
    if n > 0 {
      TakeInTurn(p, u, n - 1);
      RangeSnoc(n);
      var k := n - 1;
      assert OneTakes(p[k], u[k], p[k + 1], u[k + 1], k);
      GrowEither(p[k], u[k], p[n], u[n], Range(k), k);
    }
  }

  lemma SplitByParsing(items: seq<MetricItem>, trigger: Option<Stamp>)
    ensures multiset(ParsedIds(items, trigger, |items|)) + multiset(UnparsedIds(items, |items|)) == multiset(Range(|items|))
  {
    var p := seq(|items| + 1, k requires 0 <= k <= |items| => ParsedIds(items, trigger, k));
    var u := seq(|items| + 1, k requires 0 <= k <= |items| => UnparsedIds(items, k));
    forall k: nat | k < |items| ensures OneTakes(p[k], u[k], p[k + 1], u[k + 1], k) {
      ParsedNext(items, trigger, k);
    }
    TakeInTurn(p, u, |items|);
  }

  lemma {:induction false} GradingKeepsIndices(series: seq<seq<Point>>)
    ensures Indices(GradeAll(series)) == MapSeq(PointIdx, Concat(series))
  {
    GradeAllLength(series);
    var a := seq(|series|, j requires 0 <= j < |series| => MapSeq(PointIdx, series[j]));
    ConcatMap(PointIdx, series, a);
    ConcatMap(EntryIdx, GradeAll(series), a);
  }

  /** The indices of all parsed points, series by series. */
  lemma {:induction false} GradedIndices(items: seq<MetricItem>, trigger: Option<Stamp>)
    ensures var d := SeriesOf(items, trigger);
      multiset(Indices(GradeAll(d.vals))) + multiset(MapSeq(EntryIdx, Unparsed(items, |items|))) == multiset(Range(|items|))
  {
    var n := |items|;
    var d := SeriesOf(items, trigger);
    GroupConserves(MetricKeys(items), MetricPoints(items, trigger), n);
    SplitByParsing(items, trigger);
    MapPerm(PointIdx, Concat(d.vals), Keyed(MetricKeys(items), MetricPoints(items, trigger), n));
    GradingKeepsIndices(d.vals);
  }

  /** A parsed series bears the name reserved for unparsed items, and there are unparsed items. */
  ghost predicate NameClash(items: seq<MetricItem>) {
    && (exists i :: 0 <= i < |items| && items[i].pairs == [])
    && (exists i :: 0 <= i < |items| && MetricKey(items[i]) == Some(UNPARSED))
  }

  lemma {:induction false} UnparsedEmpty(items: seq<MetricItem>, n: nat)
    requires n <= |items|
    ensures Unparsed(items, n) == [] <==> forall i :: 0 <= i < n ==> items[i].pairs != []
  {
    if n > 0 {
      UnparsedEmpty(items, n - 1);
    }
  }

  lemma {:induction false} KeysComeFromItems<K, E>(ks: seq<Option<K>>, es: seq<E>, n: nat, k: K)
    requires n <= |ks| == |es| && k in Group(ks, es, n).keys
    ensures exists i :: 0 <= i < n && ks[i] == Some(k)
  {
    if n > 0 && ks[n - 1] != Some(k) {
      KeysComeFromItems(ks, es, n - 1, k);
    }
  }

  lemma SeriesNames(items: seq<MetricItem>, trigger: Option<Stamp>, k: SeriesKey)
    ensures k in SeriesOf(items, trigger).keys <==> exists i :: 0 <= i < |items| && MetricKey(items[i]) == Some(k)
  {
    var ks := MetricKeys(items);
    GroupLists(ks, MetricPoints(items, trigger), |items|);
    if k in SeriesOf(items, trigger).keys {
      KeysComeFromItems(ks, MetricPoints(items, trigger), |items|, k);
      var i :| 0 <= i < |items| && ks[i] == Some(k);
      assert MetricKey(items[i]) == Some(k);
    }
    forall i | 0 <= i < |items| && MetricKey(items[i]) == Some(k) ensures k in SeriesOf(items, trigger).keys {
      assert ks[i] == Some(k);
    }
  }

  /** Replacing a bucket loses what was in it. */
  lemma {:induction false} ConcatReplace<T>(ss: seq<seq<T>>, i: nat, t: seq<T>)
    requires i < |ss|
    ensures |Concat(ss[i := t])| == |Concat(ss)| - |ss[i]| + |t|
  {
    if i == 0 {
      assert ss[0 := t][1..] == ss[1..];
    } else {
      ConcatReplace(ss[1..], i - 1, t);
      assert ss[i := t][1..] == ss[1..][i - 1 := t];
    }
  }

  lemma GradedNonEmpty(items: seq<MetricItem>, trigger: Option<Stamp>)
    ensures var d := SeriesOf(items, trigger); |GradeAll(d.vals)| == |d.keys| && NoneEmpty(GradeAll(d.vals))
  {
    var d := SeriesOf(items, trigger);
    GroupLists(MetricKeys(items), MetricPoints(items, trigger), |items|);
    GradeAllLength(d.vals);
    forall j | 0 <= j < |d.vals| ensures GradeAll(d.vals)[j] != [] {
      assert |GradeSeries(d.vals[j])| == |d.vals[j]|;
    }
  }

  lemma {:induction false} PartitionLength(buckets: seq<seq<Entry>>, n: nat)
    requires Partition(buckets, n)
    ensures |Concat(buckets)| == n
  {
    assert |multiset(Indices(buckets))| == |multiset(Range(n))|;
  }

  lemma IndicesSnoc(buckets: seq<seq<Entry>>, b: seq<Entry>)
    ensures Indices(buckets + [b]) == Indices(buckets) + MapSeq(EntryIdx, b)
  {
    ConcatSnoc(buckets, b);
  }

  /**
   The metric bucketer keeps every item in exactly one bucket if and only if no series clashes with
   the reserved name; otherwise the clashing series is overwritten and its items are gone.
   */
  lemma MetricPartition(items: seq<MetricItem>, trigger: Option<Stamp>)
    ensures Partition(MetricSpec(items, trigger), |items|) <==> !NameClash(items)
    ensures NoneEmpty(MetricSpec(items, trigger))
  {
    var n := |items|;
    var d := SeriesOf(items, trigger);
    var vals := GradeAll(d.vals);
    var u := Unparsed(items, n);
    var i := Find(d.keys, UNPARSED);
    GradedIndices(items, trigger);
    GradedNonEmpty(items, trigger);
    SeriesNames(items, trigger, UNPARSED);
    UnparsedEmpty(items, n);
    if u != [] {
      if i < |d.keys| {
        LostSeries(items, trigger);
      } else {
        IndicesSnoc(vals, u);
      }
    }
  }

  lemma {:induction false} LostSeries(items: seq<MetricItem>, trigger: Option<Stamp>)
    requires Unparsed(items, |items|) != [] && Find(SeriesOf(items, trigger).keys, UNPARSED) < |SeriesOf(items, trigger).keys|
    ensures !Partition(MetricSpec(items, trigger), |items|)
  {
    var n := |items|;
    var d := SeriesOf(items, trigger);
    var vals := GradeAll(d.vals);
    var u := Unparsed(items, n);
    var i := Find(d.keys, UNPARSED);
    GradedIndices(items, trigger);
    GradedNonEmpty(items, trigger);
    ConcatReplace(vals, i, u);
    assert |multiset(Indices(vals)) + multiset(MapSeq(EntryIdx, u))| == |multiset(Range(n))|;
    if Partition(MetricSpec(items, trigger), n) {
      PartitionLength(MetricSpec(items, trigger), n);
      assert false;
    }
  }

  /** Such a batch exists: one JSON metric called like the fallback bucket next to one unparsable line. */
  lemma NameClashHappens(v: real)
    ensures NameClash([MetricItem("", [Pair("(미파싱)", v)], None), MetricItem("", [], None)])
  {
    var items := [MetricItem("", [Pair("(미파싱)", v)], None), MetricItem("", [], None)];
    assert items[1].pairs == [] && MetricKey(items[0]) == Some(UNPARSED);
  }

  /** When a batch's buckets hold every item once. */
  ghost predicate Faithful(b: Batch) {
    b.Metrics? ==> !NameClash(b.metrics)
  }

  lemma BatchPartition(b: Batch)
    requires WellFormed(b)
    ensures NoneEmpty(BucketSpec(b))
    ensures Partition(BucketSpec(b), |Times(b)|) <==> Faithful(b)
  {
    match b
    case Logs(items, clusters) => LogPartition(items, clusters);
    case Metrics(items, trigger) => MetricPartition(items, trigger);
    case Traces(items) => TracePartition(items);
  }

  // ------------------------------------------------------------------ ordered groups

  lemma RankingIds(entries: seq<Entry>)
    requires entries != []
    ensures multiset(RankingOf(entries).ids) == multiset(MapSeq(EntryIdx, entries))
  {
    SortPerm(EntryLess, entries);
    MapPerm(EntryIdx, Sort(EntryLess, entries), entries);
  }

  /** The groups hold the same indices as the buckets. */
  lemma GroupsConserve(buckets: seq<seq<Entry>>)
    requires NoneEmpty(buckets)
    ensures multiset(Concat(OrderedSpec(buckets))) == multiset(Indices(buckets))
  {
    var rs := Rankings(buckets);
    SortPerm(RankingLess, rs);
    MapPerm(Ids, Sort(RankingLess, rs), rs);
    ConcatPerm(OrderedSpec(buckets), MapSeq(Ids, rs));
    var b := seq(|buckets|, j requires 0 <= j < |buckets| => MapSeq(EntryIdx, buckets[j]));
    forall j | 0 <= j < |buckets| ensures multiset(MapSeq(Ids, rs)[j]) == multiset(b[j]) {
      RankingIds(buckets[j]);
    }
    ConcatPointwise(MapSeq(Ids, rs), b);
    ConcatMap(EntryIdx, buckets, b);
  }

  lemma EntryLessWeak(dom: set<Entry>)
    ensures Weak(EntryLess, dom)
  {
  }

  lemma RankingLessWeak(dom: set<Ranking>)
    ensures Weak(RankingLess, dom)
  {
  }

  lemma WithinItself<T>(s: seq<T>)
    ensures Within(s, set x | x in s)
  {
  }

  /** Inside a group: by grade, then by index; the first one is the best. */
  lemma {:induction false} GroupIsSorted(entries: seq<Entry>)
    requires entries != []
    ensures Ascending(EntryLess, Sort(EntryLess, entries))
    ensures forall e :: e in entries ==> !EntryLess(e, Sort(EntryLess, entries)[0])
    ensures Sort(EntryLess, entries)[0] in entries
  {
    var dom := set x | x in entries;
    EntryLessWeak(dom);
    WithinItself(entries);
    SortAscends(EntryLess, entries, dom);
    var s := Sort(EntryLess, entries);
    SortPerm(EntryLess, entries);
    SamePermElements(s, entries);
    assert s[0] in s;
    forall e | e in entries ensures !EntryLess(e, s[0]) {
      assert e in s;
      var m :| 0 <= m < |s| && s[m] == e;
    }
  }

  /** Two buckets share no index. */
  ghost predicate DisjointBuckets(buckets: seq<seq<Entry>>) {
    forall a, b, i, j :: 0 <= a < |buckets| && 0 <= b < |buckets| && a != b && 0 <= i < |buckets[a]| && 0 <= j < |buckets[b]| ==>
      buckets[a][i].idx != buckets[b][j].idx
  }

  lemma LeadInBucket(entries: seq<Entry>)
    requires entries != []
    ensures exists i :: 0 <= i < |entries| && entries[i].idx == RankingOf(entries).lead
  {
    GroupIsSorted(entries);
    var e := Sort(EntryLess, entries)[0];
    var i :| 0 <= i < |entries| && entries[i] == e;
  }

  /** With disjoint buckets the sort keys tell all groups apart. */
  lemma KeysAreDistinct(buckets: seq<seq<Entry>>, x: Ranking, y: Ranking)
    requires NoneEmpty(buckets) && DisjointBuckets(buckets) && x in Rankings(buckets) && y in Rankings(buckets)
    requires !RankingLess(x, y) && !RankingLess(y, x)
    ensures x == y
  {
    var a :| 0 <= a < |buckets| && Rankings(buckets)[a] == x;
    var b :| 0 <= b < |buckets| && Rankings(buckets)[b] == y;
    LeadInBucket(buckets[a]);
    LeadInBucket(buckets[b]);
  }

  /** The order of the groups does not depend on the order in which the dictionary yields its buckets. */
  lemma GroupOrderIsCanonical(a: seq<seq<Entry>>, b: seq<seq<Entry>>)
    requires NoneEmpty(a) && NoneEmpty(b) && DisjointBuckets(a) && multiset(a) == multiset(b)
    ensures OrderedSpec(a) == OrderedSpec(b)
  {
    var ra := Rankings(a);
    var rb := Rankings(b);
    RankingsPerm(a, b);
    SortPerm(RankingLess, ra);
    SortPerm(RankingLess, rb);
    var sa := Sort(RankingLess, ra);
    var sb := Sort(RankingLess, rb);
    SortedRankings(a);
    SortedRankings(b);
    SamePermElements(sa, ra);
    forall x, y | x in sa && y in sa && !RankingLess(x, y) && !RankingLess(y, x) ensures x == y {
      KeysAreDistinct(a, x, y);
    }
    SortedIsUnique(RankingLess, sa, sb);
  }

  lemma SortedRankings(buckets: seq<seq<Entry>>)
    requires NoneEmpty(buckets)
    ensures Ascending(RankingLess, Sort(RankingLess, Rankings(buckets)))
  {
    var rs := Rankings(buckets);
    var dom := set x | x in rs;
    RankingLessWeak(dom);
    WithinItself(rs);
    SortAscends(RankingLess, rs, dom);
  }

  lemma RankingsPerm(a: seq<seq<Entry>>, b: seq<seq<Entry>>)
    requires NoneEmpty(a) && NoneEmpty(b) && multiset(a) == multiset(b)
    ensures multiset(Rankings(a)) == multiset(Rankings(b))
  {
    ImagePerm(a, Rankings(a), b, Rankings(b));
  }

  /** Groups whose best item is prior come before groups without a prior item. */
  lemma PriorGroupsFirst(buckets: seq<seq<Entry>>, x: nat, y: nat)
    requires NoneEmpty(buckets) && x < |buckets| && y < |buckets|
    requires var s := Sort(RankingLess, Rankings(buckets)); x < |s| && y < |s| && s[x].best < s[y].best
    ensures x < y
  {
    SortedRankings(buckets);
  }

  /** `best` is 0 exactly for groups that hold an item of grade 0. */
  lemma BestMeansPrior(entries: seq<Entry>)
    requires entries != []
    ensures RankingOf(entries).best == 0 <==> exists i :: 0 <= i < |entries| && entries[i].grade == 0
  {
    GroupIsSorted(entries);
    var s := Sort(EntryLess, entries);
    var k :| 0 <= k < |entries| && entries[k] == s[0];
    forall i | 0 <= i < |entries| && entries[i].grade == 0 ensures s[0].grade == 0 {
      assert entries[i] in entries;
    }
  }
}
