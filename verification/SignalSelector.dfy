/** `signal_selector`: bucket, grade, order, pick round-robin, restore time order. */
module SignalSelector {
  import opened Wrappers
  import opened Sorting
  import opened PyDict
  import opened Signals
  import opened RoundRobin

  const PRIOR := 0
  const NORMAL := 1

  datatype Entry = Entry(grade: nat, idx: nat)

  function EntryIdx(e: Entry): nat {
    e.idx
  }

  function MapSeq<A, B>(f: A -> B, s: seq<A>): (r: seq<B>)
    ensures |r| == |s| && forall i :: 0 <= i < |r| ==> r[i] == f(s[i])
  {
    seq(|s|, i requires 0 <= i < |s| => f(s[i]))
  }

  // ------------------------------------------------------------------ log buckets

  function LogKeys(clusters: seq<nat>): seq<Option<nat>> {
    seq(|clusters|, i requires 0 <= i < |clusters| => Some(clusters[i]))
  }

  function LogEntries(items: seq<LogItem>): seq<Entry> {
    seq(|items|, i requires 0 <= i < |items| => Entry(LevelOrder(items[i].level), i))
  }

  function LogSpec(items: seq<LogItem>, clusters: seq<nat>): seq<seq<Entry>>
    requires |clusters| == |items|
  {
    Group(LogKeys(clusters), LogEntries(items), |items|).vals
  }

  /** `_log_buckets`; the Drain cluster of each line is given. */
  method LogBuckets(items: seq<LogItem>, clusters: seq<nat>) returns (buckets: seq<seq<Entry>>)
    requires |clusters| == |items|
    ensures buckets == LogSpec(items, clusters)
  {
    var d: Dict<nat, Entry> := Dict([], []);
    for idx := 0 to |items|
      invariant |d.keys| == |d.vals| && d == Group(LogKeys(clusters), LogEntries(items), idx)
    {
      d := Append(d, clusters[idx], Entry(LevelOrder(items[idx].level), idx));
    }
    buckets := d.vals;
  }

  // ------------------------------------------------------------------ metric buckets

  /** One representative value of a metric item; `base` says it lies before the trigger. */
  datatype Point = Point(idx: nat, value: real, base: bool)

  type SeriesKey = (string, string)

  const UNPARSED: SeriesKey := ("", "(미파싱)")

  function MetricKey(item: MetricItem): Option<SeriesKey> {
    if item.pairs == [] then None else Some((item.service, item.pairs[0].name))
  }

  function MetricKeys(items: seq<MetricItem>): seq<Option<SeriesKey>> {
    seq(|items|, i requires 0 <= i < |items| => MetricKey(items[i]))
  }

  function MetricPoint(items: seq<MetricItem>, trigger: Option<Stamp>, i: nat): Point
    requires i < |items|
  {
    Point(i, if items[i].pairs == [] then 0.0 else items[i].pairs[0].value, IsBase(trigger, items[i].time))
  }

  function MetricPoints(items: seq<MetricItem>, trigger: Option<Stamp>): seq<Point> {
    seq(|items|, i requires 0 <= i < |items| => MetricPoint(items, trigger, i))
  }

  /** Items without any pair, all graded normal. */
  function Unparsed(items: seq<MetricItem>, n: nat): seq<Entry>
    requires n <= |items|
  {
    if n == 0 then []
    else if items[n - 1].pairs == [] then Unparsed(items, n - 1) + [Entry(NORMAL, n - 1)]
    else Unparsed(items, n - 1)
  }

  function BaseValues(points: seq<Point>): seq<real> {
    if points == [] then []
    else BaseValues(points[..|points| - 1]) + (if points[|points| - 1].base then [points[|points| - 1].value] else [])
  }

  predicate Deviant(points: seq<Point>, p: Point) {
    var base := BaseValues(points);
    base != [] && !p.base && Strays(p.value, Mean(base), Variance(base))
  }

  function GradeOf(points: seq<Point>, p: Point): Entry {
    Entry(if Deviant(points, p) then PRIOR else NORMAL, p.idx)
  }

  function GradeSeries(points: seq<Point>): (r: seq<Entry>)
    ensures |r| == |points| && forall i :: 0 <= i < |r| ==> r[i] == GradeOf(points, points[i])
  {
    seq(|points|, i requires 0 <= i < |points| => GradeOf(points, points[i]))
  }

  predicate MixedItem(trigger: Option<Stamp>, item: MetricItem) {
    item.pairs != [] && !Comparable(trigger, item.time)
  }

  function SeriesOf(items: seq<MetricItem>, trigger: Option<Stamp>): Dict<SeriesKey, Point> {
    Group(MetricKeys(items), MetricPoints(items, trigger), |items|)
  }

  function GradeAll(series: seq<seq<Point>>): seq<seq<Entry>> {
    if series == [] then [] else GradeAll(series[..|series| - 1]) + [GradeSeries(series[|series| - 1])]
  }

  /** `buckets[("", "(미파싱)")] = unparsed`: a plain assignment, replacing a series of that name. */
  function WithUnparsed(keys: seq<SeriesKey>, vals: seq<seq<Entry>>, unparsed: seq<Entry>): seq<seq<Entry>>
    requires |keys| == |vals|
  {
    var i := Find(keys, UNPARSED);
    if unparsed == [] then vals
    else if i < |keys| then vals[i := unparsed]
    else vals + [unparsed]
  }

  lemma {:induction false} GradeAllLength(series: seq<seq<Point>>)
    ensures |GradeAll(series)| == |series|
    ensures forall j :: 0 <= j < |series| ==> GradeAll(series)[j] == GradeSeries(series[j])
  {
    if series != [] {
      GradeAllLength(series[..|series| - 1]);
    }
  }

  ghost function MetricSpec(items: seq<MetricItem>, trigger: Option<Stamp>): seq<seq<Entry>> {
    var d := SeriesOf(items, trigger);
    GradeAllLength(d.vals);
    WithUnparsed(d.keys, GradeAll(d.vals), Unparsed(items, |items|))
  }

  /** What one more item does to the series. */
  lemma SeriesNext(items: seq<MetricItem>, trigger: Option<Stamp>, n: nat)
    requires n < |items|
    ensures var d := Group(MetricKeys(items), MetricPoints(items, trigger), n);
      Group(MetricKeys(items), MetricPoints(items, trigger), n + 1) ==
        if items[n].pairs == [] then d
        else Append(d, (items[n].service, items[n].pairs[0].name), MetricPoint(items, trigger, n))
  {
    assert MetricKeys(items)[n] == MetricKey(items[n]) && MetricPoints(items, trigger)[n] == MetricPoint(items, trigger, n);
  }

  /** One of the first `n` items has a value and a time that cannot be compared with the trigger. */
  ghost predicate MixedWithin(items: seq<MetricItem>, trigger: Option<Stamp>, n: nat)
    requires n <= |items|
  {
    exists i :: 0 <= i < n && MixedItem(trigger, items[i])
  }

  lemma MixedNext(items: seq<MetricItem>, trigger: Option<Stamp>, n: nat)
    requires n < |items|
    ensures MixedWithin(items, trigger, n + 1) <==> MixedWithin(items, trigger, n) || MixedItem(trigger, items[n])
    ensures MixedItem(trigger, items[n]) ==> MixedWithin(items, trigger, |items|)
  {
  }

  /** The first pass: parse, collect series, put the rest aside. */
  method CollectSeries(items: seq<MetricItem>, trigger: Option<Stamp>)
    returns (r: Outcome<Dict<SeriesKey, Point>>, unparsed: seq<Entry>)
    ensures r.MixedZones? <==> MixedWithin(items, trigger, |items|)
    ensures r.Ok? ==> r.value == SeriesOf(items, trigger) && unparsed == Unparsed(items, |items|)
  {
    var series: Dict<SeriesKey, Point> := Dict([], []);
    unparsed := [];
    for idx := 0 to |items|
      invariant |series.keys| == |series.vals|
      invariant series == Group(MetricKeys(items), MetricPoints(items, trigger), idx)
      invariant unparsed == Unparsed(items, idx)
      invariant !MixedWithin(items, trigger, idx)
    {
      var item := items[idx];
      SeriesNext(items, trigger, idx);
      MixedNext(items, trigger, idx);
      if item.pairs == [] {
        unparsed := unparsed + [Entry(NORMAL, idx)];
      } else if !Comparable(trigger, item.time) {
        return MixedZones, unparsed;
      } else {
        series := Append(series, (item.service, item.pairs[0].name),
                         Point(idx, item.pairs[0].value, IsBase(trigger, item.time)));
      }
    }
    r := Ok(series);
  }

  /** The second pass on one series: grade each point against the series' own baseline. */
  method Grade(points: seq<Point>) returns (bucket: seq<Entry>)
    ensures bucket == GradeSeries(points)
  {
    var base := BaseValues(points);
    bucket := [];
    for m := 0 to |points|
      invariant bucket == GradeSeries(points)[..m]
    {
      var p := points[m];
      var deviant := base != [] && !p.base && Strays(p.value, Mean(base), Variance(base));
      bucket := bucket + [Entry(if deviant then PRIOR else NORMAL, p.idx)];
    }
  }

  /** `_metric_buckets`: series first, then grades against each series' own baseline. */
  method MetricBuckets(items: seq<MetricItem>, trigger: Option<Stamp>) returns (r: Outcome<seq<seq<Entry>>>)
    ensures r.MixedZones? <==> MixedWithin(items, trigger, |items|)
    ensures r.Ok? ==> r.value == MetricSpec(items, trigger)
  {
    var collected, unparsed := CollectSeries(items, trigger);
    if collected.MixedZones? {
      return MixedZones;
    }
    var series := collected.value;
    var vals: seq<seq<Entry>> := [];
    for j := 0 to |series.vals|
      invariant vals == GradeAll(series.vals[..j])
    {
      var bucket := Grade(series.vals[j]);
      assert series.vals[..j + 1][..j] == series.vals[..j];
      vals := vals + [bucket];
    }
    assert series.vals[..|series.vals|] == series.vals;
    GradeAllLength(series.vals);
    r := Ok(WithUnparsed(series.keys, vals, unparsed));
  }

  // ------------------------------------------------------------------ trace buckets

  datatype Span = Span(grade: nat, slowness: real, idx: nat)

  /** Tuple order of `(grade, -duration, idx)`. */
  function SpanLess(a: Span, b: Span): bool {
    a.grade < b.grade || (a.grade == b.grade && (a.slowness < b.slowness || (a.slowness == b.slowness && a.idx < b.idx)))
  }

  function TraceKeys(items: seq<TraceItem>): seq<Option<SeriesKey>> {
    seq(|items|, i requires 0 <= i < |items| => Some((items[i].service, items[i].operation)))
  }

  function SpanOf(item: TraceItem, i: nat): Span {
    Span(if item.isErr then PRIOR else NORMAL, -(if item.duration.Some? then item.duration.value else 0.0), i)
  }

  function Spans(items: seq<TraceItem>): seq<Span> {
    seq(|items|, i requires 0 <= i < |items| => SpanOf(items[i], i))
  }

  /** The sorted position replaces the grade. */
  function Ranked(spans: seq<Span>): (r: seq<Entry>)
    ensures |r| == |spans| && forall i :: 0 <= i < |r| ==> r[i] == Entry(i, spans[i].idx)
  {
    seq(|spans|, i requires 0 <= i < |spans| => Entry(i, spans[i].idx))
  }

  function RankAll(groups: seq<seq<Span>>): seq<seq<Entry>> {
    if groups == [] then []
    else RankAll(groups[..|groups| - 1]) + [Ranked(Sort(SpanLess, groups[|groups| - 1]))]
  }

  function TraceSpec(items: seq<TraceItem>): seq<seq<Entry>> {
    RankAll(Group(TraceKeys(items), Spans(items), |items|).vals)
  }

  method CollectSpans(items: seq<TraceItem>) returns (graded: Dict<SeriesKey, Span>)
    ensures graded == Group(TraceKeys(items), Spans(items), |items|)
  {
    graded := Dict([], []);
    for idx := 0 to |items|
      invariant |graded.keys| == |graded.vals| && graded == Group(TraceKeys(items), Spans(items), idx)
    {
      var item := items[idx];
      graded := Append(graded, (item.service, item.operation),
                       Span(if item.isErr then PRIOR else NORMAL,
                            -(if item.duration.Some? then item.duration.value else 0.0), idx));
    }
  }

  /** `_trace_buckets`. */
  method TraceBuckets(items: seq<TraceItem>) returns (buckets: seq<seq<Entry>>)
    ensures buckets == TraceSpec(items)
  {
    var graded := CollectSpans(items);
    buckets := [];
    for j := 0 to |graded.vals|
      invariant buckets == RankAll(graded.vals[..j])
    {
      assert graded.vals[..j + 1][..j] == graded.vals[..j];
      buckets := buckets + [Ranked(Sort(SpanLess, graded.vals[j]))];
    }
    assert graded.vals[..|graded.vals|] == graded.vals;
  }

  // ------------------------------------------------------------------ ordering groups

  function EntryLess(a: Entry, b: Entry): bool {
    a.grade < b.grade || (a.grade == b.grade && a.idx < b.idx)
  }

  /** The sort key of a group and its indices. */
  datatype Ranking = Ranking(best: nat, negSize: int, lead: nat, ids: seq<nat>)

  function RankingLess(a: Ranking, b: Ranking): bool {
    a.best < b.best
    || (a.best == b.best && (a.negSize < b.negSize || (a.negSize == b.negSize && a.lead < b.lead)))
  }

  function RankingOf(entries: seq<Entry>): Ranking
    requires entries != []
  {
    var s := Sort(EntryLess, entries);
    SortPerm(EntryLess, entries);
    Ranking(s[0].grade, -|s|, s[0].idx, MapSeq(EntryIdx, s))
  }

  predicate NoneEmpty<T(==)>(buckets: seq<seq<T>>) {
    forall j :: 0 <= j < |buckets| ==> buckets[j] != []
  }

  function Rankings(buckets: seq<seq<Entry>>): (r: seq<Ranking>)
    requires NoneEmpty(buckets)
    ensures |r| == |buckets| && forall j :: 0 <= j < |r| ==> r[j] == RankingOf(buckets[j])
  {
    seq(|buckets|, j requires 0 <= j < |buckets| => RankingOf(buckets[j]))
  }

  function Ids(r: Ranking): seq<nat> {
    r.ids
  }

  function OrderedSpec(buckets: seq<seq<Entry>>): seq<seq<nat>>
    requires NoneEmpty(buckets)
  {
    MapSeq(Ids, Sort(RankingLess, Rankings(buckets)))
  }

  /** `_ordered_groups`. */
  method OrderGroups(buckets: seq<seq<Entry>>) returns (groups: seq<seq<nat>>)
    requires NoneEmpty(buckets)
    ensures groups == OrderedSpec(buckets)
  {
    var ordered: seq<Ranking> := [];
    for j := 0 to |buckets|
      invariant |ordered| == j && forall i :: 0 <= i < j ==> ordered[i] == RankingOf(buckets[i])
    {
      var entries := Sort(EntryLess, buckets[j]);
      SortPerm(EntryLess, buckets[j]);
      ordered := ordered + [Ranking(entries[0].grade, -|entries|, entries[0].idx, MapSeq(EntryIdx, entries))];
    }
    assert ordered == Rankings(buckets);
    ordered := Sort(RankingLess, ordered);
    groups := MapSeq(Ids, ordered);
  }

  // ------------------------------------------------------------------ selection

  /** `(_chron(timestamp), i)`. */
  function TimeLess(times: seq<int>): (nat, nat) -> bool {
    (i: nat, j: nat) =>
      var a := if i < |times| then times[i] else 0;
      var b := if j < |times| then times[j] else 0;
      a < b || (a == b && i < j)
  }

  function Range(n: nat): (r: seq<nat>)
    ensures |r| == n && forall i :: 0 <= i < n ==> r[i] == i
  {
    seq(n, i => i)
  }

  ghost function Picked(buckets: seq<seq<Entry>>, cap: int): seq<nat>
    requires NoneEmpty(buckets)
  {
    var groups := OrderedSpec(buckets);
    OrderIsTheEnumeration(groups, []);
    Items(groups, Picks(groups, cap))
  }

  /** The indices `select_signals` keeps. */
  ghost function Kept(buckets: seq<seq<Entry>>, times: seq<int>, cap: int): seq<nat>
    requires NoneEmpty(buckets)
  {
    if |times| <= cap then Range(|times|) else Sort(TimeLess(times), Picked(buckets, cap))
  }

  datatype Batch =
    | Logs(logs: seq<LogItem>, clusters: seq<nat>)
    | Metrics(metrics: seq<MetricItem>, trigger: Option<Stamp>)
    | Traces(traces: seq<TraceItem>)

  function Times(b: Batch): seq<int> {
    match b
    case Logs(items, _) => seq(|items|, i requires 0 <= i < |items| => Chron(items[i].time))
    case Metrics(items, _) => seq(|items|, i requires 0 <= i < |items| => Chron(items[i].time))
    case Traces(items) => seq(|items|, i requires 0 <= i < |items| => Chron(items[i].time))
  }

  predicate WellFormed(b: Batch) {
    b.Logs? ==> |b.clusters| == |b.logs|
  }

  ghost function BucketSpec(b: Batch): seq<seq<Entry>>
    requires WellFormed(b)
  {
    match b
    case Logs(items, clusters) => LogSpec(items, clusters)
    case Metrics(items, trigger) => MetricSpec(items, trigger)
    case Traces(items) => TraceSpec(items)
  }

  /** Grading a metric batch compares a naive time with an aware one. */
  ghost predicate Mixed(b: Batch) {
    b.Metrics? && MixedWithin(b.metrics, b.trigger, |b.metrics|)
  }

  method Buckets(b: Batch) returns (r: Outcome<seq<seq<Entry>>>)
    requires WellFormed(b)
    ensures r.MixedZones? <==> Mixed(b)
    ensures r.Ok? ==> r.value == BucketSpec(b)
  {
    match b
    case Logs(items, clusters) =>
      var v := LogBuckets(items, clusters);
      r := Ok(v);
    case Metrics(items, trigger) =>
      r := MetricBuckets(items, trigger);
    case Traces(items) =>
      var v := TraceBuckets(items);
      r := Ok(v);
  }

  datatype Selection = Selection(items: seq<nat>, total: nat) {
    predicate Truncated() {
      |items| < total
    }
  }
}
