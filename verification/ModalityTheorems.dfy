/** The selector's promises for logs, metrics and traces, in terms of the items themselves. */
module ModalityTheorems {
  import opened Wrappers
  import opened Sorting
  import opened PyDict
  import opened Signals
  import opened AnomalyCriterion
  import opened RoundRobin
  import opened SignalSelector
  import opened SelectorTheorems
  import opened SelectionTheorems
  import opened SelectionPriority

  // ------------------------------------------------------------------ logs

  /** In one log pattern a graver line, or an earlier one as grave, is never dropped for another. */
  lemma SevereLinesFirst(items: seq<LogItem>, clusters: seq<nat>, cap: int, i: nat, k: nat)
    requires |clusters| == |items| && i < |items| && k < |items| && clusters[i] == clusters[k]
    requires Graver(items[i].level, items[k].level) || (AsGrave(items[i].level, items[k].level) && i < k)
    requires k in Result(Logs(items, clusters), cap)
    ensures i in Result(Logs(items, clusters), cap)
  {
    var ks := LogKeys(clusters);
    var es := LogEntries(items);
    var j := ListOf(ks, es, clusters[i], i);
    UnderMembers(ks, es, clusters[i], |items|, es[k]);
    BestFirst(Logs(items, clusters), cap, j, es[i], es[k]);
  }

  lemma {:induction false} LogEntry(items: seq<LogItem>, clusters: seq<nat>, c: nat, e: Entry)
    requires |clusters| == |items| && e in Under(LogKeys(clusters), LogEntries(items), c, |items|)
    ensures e.idx < |items| && clusters[e.idx] == c && (e.grade == PRIOR <==> ErrorLevel(items[e.idx].level))
  {
    UnderMembers(LogKeys(clusters), LogEntries(items), c, |items|, e);
  }

  /** At most as many buckets hold a prior item as there are keys that may. */
  lemma {:induction false} PriorsAmong<K>(keys: seq<K>, vals: seq<seq<Entry>>, among: set<K>)
    requires |keys| == |vals| && Distinct(keys)
    requires forall j :: 0 <= j < |vals| && HasPrior(vals[j]) ==> keys[j] in among
    ensures PriorCount(vals) <= |among|
  {
    if vals != [] {
      var n := |vals| - 1;
      if HasPrior(vals[n]) {
        PriorsAmong(keys[..n], vals[..n], among - {keys[n]});
      } else {
        PriorsAmong(keys[..n], vals[..n], among);
      }
    }
  }

  /** The patterns that contain an error line. */
  function ErrorPatterns(items: seq<LogItem>, clusters: seq<nat>): set<nat>
    requires |clusters| == |items|
  {
    set i | 0 <= i < |items| && ErrorLevel(items[i].level) :: clusters[i]
  }

  lemma PriorsAreErrorPatterns(items: seq<LogItem>, clusters: seq<nat>)
    requires |clusters| == |items|
    ensures PriorCount(LogSpec(items, clusters)) <= |ErrorPatterns(items, clusters)|
  {
    var d := Group(LogKeys(clusters), LogEntries(items), |items|);
    GroupLists(LogKeys(clusters), LogEntries(items), |items|);
    forall j | 0 <= j < |d.vals| && HasPrior(d.vals[j]) ensures d.keys[j] in ErrorPatterns(items, clusters) {
      var m :| 0 <= m < |d.vals[j]| && d.vals[j][m].grade == PRIOR;
      LogEntry(items, clusters, d.keys[j], d.vals[j][m]);
    }
    PriorsAmong(d.keys, d.vals, ErrorPatterns(items, clusters));
  }

  /**
   Rare errors survive: while the cap covers the patterns that contain an error line, each of them
   keeps an error line, however many lines the other patterns have.
   */
  lemma ErrorPatternsKept(items: seq<LogItem>, clusters: seq<nat>, cap: int, i: nat)
    requires |clusters| == |items| && i < |items| && ErrorLevel(items[i].level)
    requires |ErrorPatterns(items, clusters)| <= cap
    ensures exists k :: k in Result(Logs(items, clusters), cap) && k < |items| && clusters[k] == clusters[i]
                        && ErrorLevel(items[k].level)
  {
    var b := Logs(items, clusters);
    PriorsAreErrorPatterns(items, clusters);
    var j := ListOf(LogKeys(clusters), LogEntries(items), clusters[i], i);
    var bucket := BucketSpec(b)[j];
    var m :| 0 <= m < |bucket| && bucket[m] == LogEntries(items)[i];
    assert HasPrior(bucket);
    PriorPatternsKept(b, cap, j);
    var e :| e in bucket && e.grade == PRIOR && e.idx in Result(b, cap);
    LogEntry(items, clusters, clusters[i], e);
  }

  // ------------------------------------------------------------------ metrics

  /** The points of one series. */
  function SeriesPoints(items: seq<MetricItem>, trigger: Option<Stamp>, key: SeriesKey): seq<Point> {
    Under(MetricKeys(items), MetricPoints(items, trigger), key, |items|)
  }

  /** The selector's baseline of a series. */
  lemma {:induction false} BaselineIsLead(items: seq<MetricItem>, trigger: Option<Stamp>, key: SeriesKey, n: nat)
    requires n <= |items|
    ensures BaseValues(Under(MetricKeys(items), MetricPoints(items, trigger), key, n)) == LeadBaseline(items, trigger, key.0, key.1, n)
  {
    if n > 0 {
      BaselineIsLead(items, trigger, key, n - 1);
      var item := items[n - 1];
      assert MetricKeys(items)[n - 1] == MetricKey(item);
      assert MetricPoints(items, trigger)[n - 1] == MetricPoint(items, trigger, n - 1);
      if item.pairs != [] && item.service == key.0 && item.pairs[0].name == key.1 {
        assert MetricKey(item) == Some(key);
      }
    }
  }

  /** The selector grades an item prior exactly when it is anomalous. */
  lemma GradedByCriterion(items: seq<MetricItem>, trigger: Option<Stamp>, i: nat)
    requires i < |items| && items[i].pairs != []
    ensures Deviant(SeriesPoints(items, trigger, (items[i].service, items[i].pairs[0].name)), MetricPoint(items, trigger, i))
            <==> Anomalous(items, trigger, i)
  {
    var key := (items[i].service, items[i].pairs[0].name);
    var base := LeadBaseline(items, trigger, key.0, key.1, |items|);
    BaselineIsLead(items, trigger, key, |items|);
    if base != [] {
      StraysByTotals(base, items[i].pairs[0].value);
    }
  }

  /** Without a name clash the bucket of a series holds its graded points, whatever was left unparsed. */
  lemma SeriesBucket(items: seq<MetricItem>, trigger: Option<Stamp>, i: nat) returns (j: nat)
    requires !NameClash(items) && i < |items| && items[i].pairs != []
    ensures j < |MetricSpec(items, trigger)|
    ensures MetricSpec(items, trigger)[j] == GradeSeries(SeriesPoints(items, trigger, (items[i].service, items[i].pairs[0].name)))
  {
    var key := (items[i].service, items[i].pairs[0].name);
    var ks := MetricKeys(items);
    assert ks[i] == Some(key);
    j := ListOf(ks, MetricPoints(items, trigger), key, i);
    var d := SeriesOf(items, trigger);
    GradeAllLength(d.vals);
    SeriesNames(items, trigger, UNPARSED);
    UnparsedEmpty(items, |items|);
    if Unparsed(items, |items|) != [] && Find(d.keys, UNPARSED) < |d.keys| {
      assert false;
    }
  }

  lemma GradedEntry(points: seq<Point>, p: Point)
    requires p in points
    ensures GradeOf(points, p) in GradeSeries(points)
  {
    var m :| 0 <= m < |points| && points[m] == p;
    assert GradeSeries(points)[m] == GradeOf(points, p);
  }

  lemma PointListed(items: seq<MetricItem>, trigger: Option<Stamp>, i: nat)
    requires i < |items| && items[i].pairs != []
    ensures MetricPoint(items, trigger, i) in SeriesPoints(items, trigger, (items[i].service, items[i].pairs[0].name))
  {
    var key := (items[i].service, items[i].pairs[0].name);
    assert MetricKeys(items)[i] == Some(key) && MetricPoints(items, trigger)[i] == MetricPoint(items, trigger, i);
    UnderMembers(MetricKeys(items), MetricPoints(items, trigger), key, |items|, MetricPoint(items, trigger, i));
  }

  /** In one series an anomalous point is never dropped for an ordinary one. */
  lemma AnomaliesFirst(items: seq<MetricItem>, trigger: Option<Stamp>, cap: int, i: nat, k: nat)
    requires !NameClash(items) && i < |items| && k < |items| && items[i].pairs != [] && items[k].pairs != []
    requires items[i].service == items[k].service && items[i].pairs[0].name == items[k].pairs[0].name
    requires Anomalous(items, trigger, i) && !Anomalous(items, trigger, k)
    requires k in Result(Metrics(items, trigger), cap)
    ensures i in Result(Metrics(items, trigger), cap)
  {
    var points := SeriesPoints(items, trigger, (items[i].service, items[i].pairs[0].name));
    var j := SeriesBucket(items, trigger, i);
    PointListed(items, trigger, i);
    PointListed(items, trigger, k);
    GradedByCriterion(items, trigger, i);
    GradedByCriterion(items, trigger, k);
    GradedEntry(points, MetricPoint(items, trigger, i));
    GradedEntry(points, MetricPoint(items, trigger, k));
    BestFirst(Metrics(items, trigger), cap, j, GradeOf(points, MetricPoint(items, trigger, i)),
              GradeOf(points, MetricPoint(items, trigger, k)));
  }

  lemma SeriesEntry(items: seq<MetricItem>, trigger: Option<Stamp>, key: SeriesKey, e: Entry)
    requires e in GradeSeries(SeriesPoints(items, trigger, key)) && e.grade == PRIOR
    ensures e.idx < |items| && MetricKey(items[e.idx]) == Some(key) && Anomalous(items, trigger, e.idx)
  {
    var points := SeriesPoints(items, trigger, key);
    var m :| 0 <= m < |points| && GradeSeries(points)[m] == e;
    assert points[m] in points;
    UnderMembers(MetricKeys(items), MetricPoints(items, trigger), key, |items|, points[m]);
    var i :| 0 <= i < |items| && MetricKeys(items)[i] == Some(key) && MetricPoints(items, trigger)[i] == points[m];
    assert points[m] == MetricPoint(items, trigger, i) && e == GradeOf(points, points[m]);
    assert MetricKey(items[i]) == Some(key);
    GradedByCriterion(items, trigger, i);
  }

  /** The series that contain an anomalous item. */
  function AnomalousSeries(items: seq<MetricItem>, trigger: Option<Stamp>): set<SeriesKey> {
    set i | 0 <= i < |items| && items[i].pairs != [] && Anomalous(items, trigger, i) :: (items[i].service, items[i].pairs[0].name)
  }

  /** The unparsed items are one more bucket, without a prior item. */
  lemma {:induction false} UnparsedNormal(items: seq<MetricItem>, n: nat)
    requires n <= |items|
    ensures !HasPrior(Unparsed(items, n))
  {
    if n > 0 {
      UnparsedNormal(items, n - 1);
    }
  }

  lemma PriorsAreAnomalousSeries(items: seq<MetricItem>, trigger: Option<Stamp>)
    requires !NameClash(items)
    ensures PriorCount(MetricSpec(items, trigger)) <= |AnomalousSeries(items, trigger)|
  {
    var d := SeriesOf(items, trigger);
    var vals := GradeAll(d.vals);
    GradeAllLength(d.vals);
    GroupLists(MetricKeys(items), MetricPoints(items, trigger), |items|);
    forall j | 0 <= j < |vals| && HasPrior(vals[j]) ensures d.keys[j] in AnomalousSeries(items, trigger) {
      var m :| 0 <= m < |vals[j]| && vals[j][m].grade == PRIOR;
      SeriesEntry(items, trigger, d.keys[j], vals[j][m]);
    }
    PriorsAmong(d.keys, vals, AnomalousSeries(items, trigger));
    SeriesNames(items, trigger, UNPARSED);
    UnparsedEmpty(items, |items|);
    UnparsedNormal(items, |items|);
    var u := Unparsed(items, |items|);
    if u != [] {
      assert (vals + [u])[..|vals|] == vals;
    }
  }

  /** While the cap covers the anomalous series, each of them keeps an anomalous point. */
  lemma AnomalousSeriesKept(items: seq<MetricItem>, trigger: Option<Stamp>, cap: int, i: nat)
    requires !NameClash(items) && i < |items| && items[i].pairs != [] && Anomalous(items, trigger, i)
    requires |AnomalousSeries(items, trigger)| <= cap
    ensures exists k :: k in Result(Metrics(items, trigger), cap) && k < |items| && MetricKey(items[k]) == MetricKey(items[i])
                        && Anomalous(items, trigger, k)
  {
    var b := Metrics(items, trigger);
    var key := (items[i].service, items[i].pairs[0].name);
    var points := SeriesPoints(items, trigger, key);
    var j := SeriesBucket(items, trigger, i);
    PriorsAreAnomalousSeries(items, trigger);
    PointListed(items, trigger, i);
    GradedByCriterion(items, trigger, i);
    GradedEntry(points, MetricPoint(items, trigger, i));
    var bucket := BucketSpec(b)[j];
    var m :| 0 <= m < |bucket| && bucket[m] == GradeOf(points, MetricPoint(items, trigger, i));
    assert HasPrior(bucket);
    PriorPatternsKept(b, cap, j);
    var e :| e in bucket && e.grade == PRIOR && e.idx in Result(b, cap);
    SeriesEntry(items, trigger, key, e);
  }

  // ------------------------------------------------------------------ traces

  lemma {:induction false} RankedInOrder(spans: seq<Span>, dom: set<Span>)
    requires Within(spans, dom)
    ensures Ascending(SpanLess, Sort(SpanLess, spans))
  {
    SpanLessWeak(dom);
    SortAscends(SpanLess, spans, dom);
  }

  lemma SpanLessWeak(dom: set<Span>)
    ensures Weak(SpanLess, dom)
  {
  }

  /** The rank entry of a span inside its bucket. */
  lemma RankOfSpan(spans: seq<Span>, a: Span) returns (m: nat)
    requires a in spans
    ensures m < |spans| == |Sort(SpanLess, spans)| && Sort(SpanLess, spans)[m] == a
    ensures Entry(m, a.idx) in Ranked(Sort(SpanLess, spans))
  {
    SortPerm(SpanLess, spans);
    SamePermElements(spans, Sort(SpanLess, spans));
    m :| m < |Sort(SpanLess, spans)| && Sort(SpanLess, spans)[m] == a;
    assert Ranked(Sort(SpanLess, spans))[m] == Entry(m, a.idx);
  }

  /** How long a span took, nothing counting as no time. */
  function Took(item: TraceItem): real {
    match item.duration
    case Some(ms) => ms
    case None => 0.0
  }

  /** Inside one operation an error span is never dropped for a clean one, nor a slow one for a faster one. */
  lemma WorstSpansFirst(items: seq<TraceItem>, cap: int, i: nat, k: nat)
    requires i < |items| && k < |items|
    requires items[i].service == items[k].service && items[i].operation == items[k].operation
    requires (items[i].isErr && !items[k].isErr)
             || (items[i].isErr == items[k].isErr
                 && (Took(items[i]) > Took(items[k]) || (Took(items[i]) == Took(items[k]) && i < k)))
    requires k in Result(Traces(items), cap)
    ensures i in Result(Traces(items), cap)
  {
    var key := (items[i].service, items[i].operation);
    var j := ListOf(TraceKeys(items), Spans(items), key, i);
    UnderMembers(TraceKeys(items), Spans(items), key, |items|, Spans(items)[k]);
    var groups := Group(TraceKeys(items), Spans(items), |items|).vals;
    RankAllFacts(groups);
    var a := RankOfSpan(groups[j], SpanOf(items[i], i));
    var z := RankOfSpan(groups[j], SpanOf(items[k], k));
    WithinItself(groups[j]);
    RankedInOrder(groups[j], set x | x in groups[j]);
    BestFirst(Traces(items), cap, j, Entry(a, i), Entry(z, k));
  }

  // ------------------------------------------------------------------ errors between operations

  /** A trace bucket holds an error span. */
  predicate Failing(items: seq<TraceItem>, ids: seq<nat>) {
    exists m :: 0 <= m < |ids| && ids[m] < |items| && items[ids[m]].isErr
  }

  /** What the documentation promises: operations with errors come before operations without. */
  ghost predicate ErrorGroupsFirst(items: seq<TraceItem>) {
    TracePartition(items);
    var groups := OrderedSpec(TraceSpec(items));
    forall x, y :: 0 <= x < |groups| && 0 <= y < |groups| && Failing(items, groups[x]) && !Failing(items, groups[y]) ==> x < y
  }

  function BucketIds(bucket: seq<Entry>): seq<nat> {
    MapSeq(EntryIdx, bucket)
  }

  /** A rank bucket counts 0, 1, 2, … */
  ghost predicate CountsUp(bucket: seq<Entry>) {
    forall m :: 0 <= m < |bucket| ==> bucket[m].grade == m
  }

  /** Ordering a rank bucket changes nothing, and its best rank is always 0: the error grade is gone. */
  lemma RankBucket(bucket: seq<Entry>)
    requires bucket != [] && CountsUp(bucket)
    ensures RankingOf(bucket) == Ranking(0, -|bucket|, bucket[0].idx, BucketIds(bucket))
  {
    var s := Sort(EntryLess, bucket);
    SortPerm(EntryLess, bucket);
    GroupIsSorted(bucket);
    assert Ascending(EntryLess, bucket);
    forall x, y | x in s && y in s && !EntryLess(x, y) && !EntryLess(y, x) ensures x == y {}
    SortedIsUnique(EntryLess, s, bucket);
  }

  lemma TraceBucketsCountUp(items: seq<TraceItem>)
    ensures forall j :: 0 <= j < |TraceSpec(items)| ==> CountsUp(TraceSpec(items)[j])
  {
    RankAllFacts(Group(TraceKeys(items), Spans(items), |items|).vals);
  }

  /** How the ordering compares two trace buckets: larger first, then the smaller leading index. */
  predicate Outranks(a: seq<Entry>, b: seq<Entry>)
    requires a != [] && b != []
  {
    |a| > |b| || (|a| == |b| && a[0].idx < b[0].idx)
  }

  lemma {:induction false} ConcatAt<T>(ss: seq<seq<T>>, p: Place, q: Place) returns (a: nat, b: nat)
    requires Valid(ss, p) && Valid(ss, q) && p.1 < q.1
    ensures a < b < |Concat(ss)| && Concat(ss)[a] == ss[p.1][p.0] && Concat(ss)[b] == ss[q.1][q.0]
  {
    var rest := Concat(ss[1..]);
    forall k | 0 <= k < |rest| ensures rest[k] == Concat(ss)[|ss[0]| + k] {}
    if p.1 == 0 {
      InConcat(ss[1..], (q.0, q.1 - 1));
      var k :| 0 <= k < |rest| && rest[k] == ss[q.1][q.0];
      a, b := p.0, |ss[0]| + k;
    } else {
      var c, d := ConcatAt(ss[1..], (p.0, p.1 - 1), (q.0, q.1 - 1));
      a, b := |ss[0]| + c, |ss[0]| + d;
    }
  }

  lemma PartitionIsDisjoint(buckets: seq<seq<Entry>>, n: nat)
    requires Partition(buckets, n)
    ensures DisjointBuckets(buckets)
  {
    PermOfRange(Indices(buckets), n);
    forall a, b, i, j | 0 <= a < |buckets| && 0 <= b < |buckets| && a != b && 0 <= i < |buckets[a]| && 0 <= j < |buckets[b]|
      ensures buckets[a][i].idx != buckets[b][j].idx
    {
      if a < b {
        var c, d := ConcatAt(buckets, (i, a), (j, b));
        assert Indices(buckets)[c] != Indices(buckets)[d];
      } else {
        var c, d := ConcatAt(buckets, (j, b), (i, a));
        assert Indices(buckets)[c] != Indices(buckets)[d];
      }
    }
  }

  lemma StandingsRank(buckets: seq<seq<Entry>>, x: nat)
    requires NoneEmpty(buckets) && x < |Standings(buckets)|
    ensures Standings(buckets)[x] in Rankings(buckets)
  {
    var j := BucketOfGroup(buckets, x);
    assert Rankings(buckets)[j] == Standings(buckets)[x];
  }

  /** With disjoint buckets, one group stands before another exactly when its sort key is smaller. */
  lemma StandsBefore(buckets: seq<seq<Entry>>, x: nat, y: nat)
    requires NoneEmpty(buckets) && DisjointBuckets(buckets)
    requires x < |Standings(buckets)| && y < |Standings(buckets)| && Standings(buckets)[x] != Standings(buckets)[y]
    ensures x < y <==> RankingLess(Standings(buckets)[x], Standings(buckets)[y])
  {
    var a, b := Standings(buckets)[x], Standings(buckets)[y];
    StandingsRank(buckets, x);
    StandingsRank(buckets, y);
    if !RankingLess(a, b) && !RankingLess(b, a) {
      KeysAreDistinct(buckets, a, b);
    }
    SortedRankings(buckets);
  }

  /** Every failing bucket outranks every clean one. */
  ghost predicate FailingOutrank(items: seq<TraceItem>, buckets: seq<seq<Entry>>)
    requires NoneEmpty(buckets)
  {
    forall a, b :: 0 <= a < |buckets| && 0 <= b < |buckets|
      && Failing(items, BucketIds(buckets[a])) && !Failing(items, BucketIds(buckets[b]))
      ==> Outranks(buckets[a], buckets[b])
  }

  /**
   The documentation promises that operations containing errors come first. The ranks that replace the
   error grade hide it, so the promise holds exactly when every failing operation has more spans than
   every clean one, or equally many and the smaller leading index.
   */
  lemma ErrorGroupsFirstExactly(items: seq<TraceItem>)
    ensures NoneEmpty(TraceSpec(items))
    ensures ErrorGroupsFirst(items) <==> FailingOutrank(items, TraceSpec(items))
  {
    TracePartition(items);
    TraceBucketsCountUp(items);
    var buckets := TraceSpec(items);
    PartitionIsDisjoint(buckets, |items|);
    if ErrorGroupsFirst(items) {
      forall a, b | 0 <= a < |buckets| && 0 <= b < |buckets|
        && Failing(items, BucketIds(buckets[a])) && !Failing(items, BucketIds(buckets[b]))
        ensures Outranks(buckets[a], buckets[b])
      {
        var x := GroupOfBucket(buckets, a);
        var y := GroupOfBucket(buckets, b);
        RankBucket(buckets[a]);
        RankBucket(buckets[b]);
        StandsBefore(buckets, x, y);
      }
    }
    if FailingOutrank(items, buckets) {
      var groups := OrderedSpec(buckets);
      forall x, y | 0 <= x < |groups| && 0 <= y < |groups| && Failing(items, groups[x]) && !Failing(items, groups[y])
        ensures x < y
      {
        var a := BucketOfGroup(buckets, x);
        var b := BucketOfGroup(buckets, y);
        RankBucket(buckets[a]);
        RankBucket(buckets[b]);
        StandsBefore(buckets, x, y);
      }
    }
  }

  // A batch where the promise fails: two clean calls of one operation, one failing call of another.

  const CLEAN := TraceItem("api", "read", None, false, "00:00", None)
  const FAILED := TraceItem("db", "write", None, true, "00:00", None)
  const LOPSIDED := [CLEAN, CLEAN, FAILED]

  lemma LopsidedGroups()
    ensures var es := Spans(LOPSIDED); Group(TraceKeys(LOPSIDED), es, 3).vals == [[es[0], es[1]], [es[2]]]
  {
    var ks := TraceKeys(LOPSIDED);
    var es := Spans(LOPSIDED);
    assert ks[0] == ks[1] == Some(("api", "read")) && ks[2] == Some(("db", "write"));
    var d0 := Group(ks, es, 0);
    var d1 := Append(d0, ("api", "read"), es[0]);
    assert Group(ks, es, 1) == d1;
    assert d1 == Dict([("api", "read")], [[es[0]]]);
    var d2 := Append(d1, ("api", "read"), es[1]);
    assert Group(ks, es, 2) == d2;
    assert d2.keys == d1.keys && d2.vals == [[es[0]] + [es[1]]];
    assert [es[0]] + [es[1]] == [es[0], es[1]];
    assert ("db", "write") !in d2.keys;
  }

  lemma LopsidedBuckets()
    ensures TraceSpec(LOPSIDED) == [[Entry(0, 0), Entry(1, 1)], [Entry(0, 2)]]
  {
    LopsidedGroups();
    var es := Spans(LOPSIDED);
    var groups := [[es[0], es[1]], [es[2]]];
    assert Sort(SpanLess, [es[1]]) == [es[1]];
    assert [es[0], es[1]][1..] == [es[1]];
    assert Sort(SpanLess, [es[0], es[1]]) == [es[0], es[1]];
    assert Sort(SpanLess, [es[2]]) == [es[2]];
    RankAllFacts(groups);
    assert Ranked([es[0], es[1]]) == [Entry(0, 0), Entry(1, 1)];
    assert Ranked([es[2]]) == [Entry(0, 2)];
  }

  /** With a cap of one the clean span is sent and the only error span is not. */
  lemma ErrorSpanDropped()
    ensures !ErrorGroupsFirst(LOPSIDED)
    ensures 0 in Result(Traces(LOPSIDED), 1) && 2 !in Result(Traces(LOPSIDED), 1)
  {
    LopsidedBuckets();
    ErrorGroupsFirstExactly(LOPSIDED);
    var buckets := TraceSpec(LOPSIDED);
    assert BucketIds(buckets[0]) == [0, 1] && BucketIds(buckets[1]) == [2];
    assert LOPSIDED[BucketIds(buckets[1])[0]].isErr;
    assert Failing(LOPSIDED, BucketIds(buckets[1])) && !Failing(LOPSIDED, BucketIds(buckets[0]));
    assert !Outranks(buckets[1], buckets[0]);
    LargerGroupKept(LOPSIDED);
  }

  /** The group of clean spans stands first, so it fills the cap. */
  lemma LargerGroupKept(items: seq<TraceItem>)
    requires TraceSpec(items) == [[Entry(0, 0), Entry(1, 1)], [Entry(0, 2)]] && |items| == 3
    ensures 0 in Result(Traces(items), 1) && 2 !in Result(Traces(items), 1)
  {
    var b := Traces(items);
    var buckets := TraceSpec(items);
    BatchPartition(b);
    PartitionIsDisjoint(buckets, 3);
    TraceBucketsCountUp(items);
    RankBucket(buckets[0]);
    RankBucket(buckets[1]);
    var x := GroupOfBucket(buckets, 0);
    var y := GroupOfBucket(buckets, 1);
    StandsBefore(buckets, x, y);
    SortPerm(RankingLess, Rankings(buckets));
    assert x == 0;
    EarlyBestKept(b, 1, 0, 0);
    KeptIsASubset(b, 1);
    var kept := Result(b, 1);
    assert |kept| == 1;
    assert kept[0] == 0;
  }
}
