/** `compress_traces`: call counts, errors, volume by minute and latency percentiles. */
module TraceCompression {
  import opened Sorting
  import opened Strings
  import opened Sums
  import opened Signals

  datatype Operation = Operation(service: string, operation: string, count: nat, err: nat, durations: seq<real>)

  datatype Minute = Minute(minute: string, spans: nat)

  /** The spans of one displayed service by minute. */
  datatype Timeline = Timeline(service: string, minutes: seq<Minute>)

  // ------------------------------------------------------------------ the counters

  function Duration(item: TraceItem): seq<real> {
    if item.duration.Some? then [item.duration.value] else []
  }

  function Err(item: TraceItem): nat {
    if item.isErr then 1 else 0
  }

  predicate Serves(o: Operation, item: TraceItem) {
    o.service == item.service && o.operation == item.operation
  }

  /** The counters of an operation after one more of its spans. */
  function Served(o: Operation, item: TraceItem): Operation {
    o.(count := o.count + 1, err := o.err + Err(item), durations := o.durations + Duration(item))
  }

  /** `agg[(service, operation)]` after one more span. */
  function CountSpan(ops: seq<Operation>, item: TraceItem): seq<Operation> {
    if ops == [] then [Operation(item.service, item.operation, 1, Err(item), Duration(item))]
    else if Serves(ops[0], item) then [Served(ops[0], item)] + ops[1..]
    else [ops[0]] + CountSpan(ops[1..], item)
  }

  function CountMinute(minutes: seq<Minute>, m: string): seq<Minute> {
    if minutes == [] then [Minute(m, 1)]
    else if minutes[0].minute == m then [Minute(m, minutes[0].spans + 1)] + minutes[1..]
    else [minutes[0]] + CountMinute(minutes[1..], m)
  }

  /** `volume[service][minute]` after one more span. */
  function CountVolume(volume: seq<Timeline>, service: string, m: string): seq<Timeline> {
    if volume == [] then [Timeline(service, CountMinute([], m))]
    else if volume[0].service == service then [Timeline(service, CountMinute(volume[0].minutes, m))] + volume[1..]
    else [volume[0]] + CountVolume(volume[1..], service, m)
  }

  function Operations(items: seq<TraceItem>): seq<Operation> {
    if items == [] then [] else CountSpan(Operations(items[..|items| - 1]), items[|items| - 1])
  }

  function Volume(items: seq<TraceItem>): seq<Timeline> {
    if items == [] then []
    else
      var last := items[|items| - 1];
      CountVolume(Volume(items[..|items| - 1]), Shown(last.service), last.minute)
  }

  // ------------------------------------------------------------------ the table

  /** `(-err, -count)`. */
  function OperationLess(a: Operation, b: Operation): bool {
    a.err > b.err || (a.err == b.err && a.count > b.count)
  }

  function TimelineLess(a: Timeline, b: Timeline): bool {
    StringLess(a.service, b.service)
  }

  function MinuteLess(a: Minute, b: Minute): bool {
    StringLess(a.minute, b.minute)
  }

  function RealLess(a: real, b: real): bool {
    a < b
  }

  /** Python's `round`: half to even. */
  function Round(x: real): int {
    var f := x.Floor;
    var d := x - f as real;
    if d < 0.5 then f else if d > 0.5 then f + 1 else if f % 2 == 0 then f else f + 1
  }

  function Clamp(i: int, n: nat): (r: nat)
    requires n > 0
    ensures r < n && (0 <= i < n ==> r == i)
  {
    if i < 0 then 0 else if i < n then i else n - 1
  }

  function Rank(p: real, n: nat): (r: nat)
    requires n > 0
    ensures r < n
  {
    Clamp(Round(Scaled(p, n)), n)
  }

  function Scaled(p: real, n: nat): real {
    p * (n as real - 1.0)
  }

  /** `_percentile`. */
  function Percentile(sorted: seq<real>, p: real): (r: real)
    requires sorted != []
    ensures r in sorted
  {
    sorted[Rank(p, |sorted|)]
  }

  datatype Latency = NoLatency | Latency(p50: real, p95: real, max: real)

  function LatencyOf(durations: seq<real>): Latency {
    if durations == [] then NoLatency
    else
      SortPerm(RealLess, durations);
      var ds := Sort(RealLess, durations);
      Latency(Percentile(ds, 0.5), Percentile(ds, 0.95), ds[|ds| - 1])
  }

  datatype Line = Line(op: Operation, latency: Latency)

  function LineOf(o: Operation): Line {
    Line(o, LatencyOf(o.durations))
  }

  function LinesOf(ops: seq<Operation>): seq<Line> {
    if ops == [] then [] else LinesOf(ops[..|ops| - 1]) + [LineOf(ops[|ops| - 1])]
  }

  /** The lines of the digest. */
  function Table(items: seq<TraceItem>): seq<Line> {
    LinesOf(Sort(OperationLess, Operations(items)))
  }

  function SortedMinutes(t: Timeline): Timeline {
    t.(minutes := Sort(MinuteLess, t.minutes))
  }

  function TimelinesOf(volume: seq<Timeline>): seq<Timeline> {
    if volume == [] then [] else TimelinesOf(volume[..|volume| - 1]) + [SortedMinutes(volume[|volume| - 1])]
  }

  method CompressTraces(items: seq<TraceItem>) returns (lines: seq<Line>, timelines: seq<Timeline>)
    ensures lines == Table(items)
    ensures timelines == Drawing(items)
  {
    var agg: seq<Operation>, volume: seq<Timeline> := [], [];
    for n := 0 to |items|
      invariant agg == Operations(items[..n]) && volume == Volume(items[..n])
    {
      assert items[..n + 1][..n] == items[..n];
      agg := CountSpan(agg, items[n]);
      volume := CountVolume(volume, Shown(items[n].service), items[n].minute);
    }
    assert items[..|items|] == items;
    lines := Render(Sort(OperationLess, agg));
    timelines := RenderVolume(Sort(TimelineLess, volume));
  }

  method Render(ops: seq<Operation>) returns (lines: seq<Line>)
    ensures lines == LinesOf(ops)
  {
    lines := [];
    for j := 0 to |ops|
      invariant lines == LinesOf(ops[..j])
    {
      assert ops[..j + 1][..j] == ops[..j];
      lines := lines + [LineOf(ops[j])];
    }
    assert ops[..|ops|] == ops;
  }

  method RenderVolume(volume: seq<Timeline>) returns (timelines: seq<Timeline>)
    ensures timelines == TimelinesOf(volume)
  {
    timelines := [];
    for j := 0 to |volume|
      invariant timelines == TimelinesOf(volume[..j])
    {
      assert volume[..j + 1][..j] == volume[..j];
      timelines := timelines + [SortedMinutes(volume[j])];
    }
    assert volume[..|volume|] == volume;
  }

  // ------------------------------------------------------------------ conservation

  function CallsOf(p: (string, string) -> bool): Operation -> int {
    (o: Operation) => if p(o.service, o.operation) then o.count else 0
  }

  function ErrorsOf(p: (string, string) -> bool): Operation -> int {
    (o: Operation) => if p(o.service, o.operation) then o.err else 0
  }

  function TimedOf(p: (string, string) -> bool): Operation -> int {
    (o: Operation) => if p(o.service, o.operation) then |o.durations| else 0
  }

  function Called(p: (string, string) -> bool): TraceItem -> bool {
    (i: TraceItem) => p(i.service, i.operation)
  }

  function Failed(p: (string, string) -> bool): TraceItem -> bool {
    (i: TraceItem) => p(i.service, i.operation) && i.isErr
  }

  function Timed(p: (string, string) -> bool): TraceItem -> bool {
    (i: TraceItem) => p(i.service, i.operation) && i.duration.Some?
  }

  /** One more span raises every total it belongs to by what it contributes, and no other. */
  lemma {:induction false} CountSpanAdds(f: Operation -> int, ops: seq<Operation>, item: TraceItem, gain: int)
    requires forall o :: Serves(o, item) ==> f(Served(o, item)) == f(o) + gain
    requires f(Operation(item.service, item.operation, 1, Err(item), Duration(item))) == gain
    ensures SumBy(f, CountSpan(ops, item)) == SumBy(f, ops) + gain
  {
    var next := CountSpan(ops, item);
    SumHead(f, next);
    if ops != [] {
      SumHead(f, ops);
      if Serves(ops[0], item) {
        assert next[1..] == ops[1..];
      } else {
        CountSpanAdds(f, ops[1..], item, gain);
        assert next[1..] == CountSpan(ops[1..], item);
      }
    }
  }

  /** Whatever operations one looks at, their calls, errors and durations add up to the spans that have them. */
  lemma {:induction false} OperationsAreTallies(p: (string, string) -> bool, items: seq<TraceItem>)
    ensures SumBy(CallsOf(p), Operations(items)) == Tally(Called(p), items)
    ensures SumBy(ErrorsOf(p), Operations(items)) == Tally(Failed(p), items)
    ensures SumBy(TimedOf(p), Operations(items)) == Tally(Timed(p), items)
  {
    if items != [] {
      var init, last := items[..|items| - 1], items[|items| - 1];
      OperationsAreTallies(p, init);
      CountSpanAdds(CallsOf(p), Operations(init), last, if Called(p)(last) then 1 else 0);
      CountSpanAdds(ErrorsOf(p), Operations(init), last, if Failed(p)(last) then 1 else 0);
      CountSpanAdds(TimedOf(p), Operations(init), last, if Timed(p)(last) then 1 else 0);
    }
  }

  function SpansOf(q: (string, string) -> bool, service: string): Minute -> int {
    (m: Minute) => if q(service, m.minute) then m.spans else 0
  }

  function VolumeOf(q: (string, string) -> bool): Timeline -> int {
    (t: Timeline) => SumBy(SpansOf(q, t.service), t.minutes)
  }

  function Drawn(q: (string, string) -> bool): TraceItem -> bool {
    (i: TraceItem) => q(if i.service == "" then "?" else i.service, i.minute)
  }

  lemma {:induction false} CountMinuteAdds(q: (string, string) -> bool, service: string, minutes: seq<Minute>, m: string)
    ensures SumBy(SpansOf(q, service), CountMinute(minutes, m)) == SumBy(SpansOf(q, service), minutes) + (if q(service, m) then 1 else 0)
  {
    var f := SpansOf(q, service);
    var next := CountMinute(minutes, m);
    SumHead(f, next);
    if minutes != [] {
      SumHead(f, minutes);
      if minutes[0].minute == m {
        assert next[1..] == minutes[1..];
      } else {
        CountMinuteAdds(q, service, minutes[1..], m);
        assert next[1..] == CountMinute(minutes[1..], m);
      }
    }
  }

  lemma {:induction false} CountVolumeAdds(q: (string, string) -> bool, volume: seq<Timeline>, service: string, m: string)
    ensures SumBy(VolumeOf(q), CountVolume(volume, service, m)) == SumBy(VolumeOf(q), volume) + (if q(service, m) then 1 else 0)
  {
    var next := CountVolume(volume, service, m);
    SumHead(VolumeOf(q), next);
    if volume == [] {
      CountMinuteAdds(q, service, [], m);
    } else {
      SumHead(VolumeOf(q), volume);
      if volume[0].service == service {
        CountMinuteAdds(q, service, volume[0].minutes, m);
        assert next[1..] == volume[1..];
      } else {
        CountVolumeAdds(q, volume[1..], service, m);
        assert next[1..] == CountVolume(volume[1..], service, m);
      }
    }
  }

  /** The timelines add up to the spans, whatever services and minutes one looks at. */
  lemma {:induction false} VolumeIsTally(q: (string, string) -> bool, items: seq<TraceItem>)
    ensures SumBy(VolumeOf(q), Volume(items)) == Tally(Drawn(q), items)
  {
    if items != [] {
      var init, last := items[..|items| - 1], items[|items| - 1];
      VolumeIsTally(q, init);
      CountVolumeAdds(q, Volume(init), Shown(last.service), last.minute);
    }
  }

  // ------------------------------------------------------------------ main results

  function Anything(): (string, string) -> bool {
    (a: string, b: string) => true
  }

  function ShownAs(name: string): (string, string) -> bool {
    (service: string, operation: string) => (if service == "" then "?" else service) == name
  }

  function InTimeline(name: string): (string, string) -> bool {
    (service: string, minute: string) => service == name
  }

  function Exactly(service: string, operation: string): (string, string) -> bool {
    (a: string, b: string) => a == service && b == operation
  }

  lemma {:induction false} SameTally<T>(p: T -> bool, q: T -> bool, s: seq<T>)
    requires forall i :: 0 <= i < |s| ==> p(s[i]) == q(s[i])
    ensures Tally(p, s) == Tally(q, s)
  {
    if s != [] {
      SameTally(p, q, s[..|s| - 1]);
    }
  }

  predicate IsError(i: TraceItem) {
    i.isErr
  }

  /** The table accounts for every span and every error. */
  lemma {:induction false} TraceTotals(items: seq<TraceItem>)
    ensures SumBy(CallsOf(Anything()), Sort(OperationLess, Operations(items))) == |items|
    ensures SumBy(ErrorsOf(Anything()), Sort(OperationLess, Operations(items))) == Tally(IsError, items)
  {
    var ops := Operations(items);
    OperationsAreTallies(Anything(), items);
    SortPerm(OperationLess, ops);
    SumPerm(CallsOf(Anything()), Sort(OperationLess, ops), ops);
    SumPerm(ErrorsOf(Anything()), Sort(OperationLess, ops), ops);
    SameTally(Failed(Anything()), IsError, items);
    EverySpan(items);
  }

  lemma {:induction false} EverySpan(items: seq<TraceItem>)
    ensures Tally(Called(Anything()), items) == |items|
  {
    if items != [] {
      EverySpan(items[..|items| - 1]);
    }
  }

  lemma {:induction false} TimelinesTotal(f: Timeline -> int, volume: seq<Timeline>)
    requires forall t :: f(SortedMinutes(t)) == f(t)
    ensures SumBy(f, TimelinesOf(volume)) == SumBy(f, volume)
  {
    if volume != [] {
      var n := |volume| - 1;
      TimelinesTotal(f, volume[..n]);
      SumSnoc(f, TimelinesOf(volume[..n]), SortedMinutes(volume[n]));
    }
  }

  /** For every displayed service, the timeline adds up to the calls of the operations shown under that name. */
  lemma {:induction false} TimelineMatchesCalls(items: seq<TraceItem>, name: string)
    ensures SumBy(VolumeOf(InTimeline(name)), Drawing(items))
            == SumBy(CallsOf(ShownAs(name)), Sort(OperationLess, Operations(items)))
  {
    var f := VolumeOf(InTimeline(name));
    forall t: Timeline ensures f(SortedMinutes(t)) == f(t) {
      SortPerm(MinuteLess, t.minutes);
      SumPerm(SpansOf(InTimeline(name), t.service), Sort(MinuteLess, t.minutes), t.minutes);
    }
    TimelinesTotal(f, Sort(TimelineLess, Volume(items)));
    SortPerm(TimelineLess, Volume(items));
    SumPerm(f, Sort(TimelineLess, Volume(items)), Volume(items));
    VolumeIsTally(InTimeline(name), items);
    SortPerm(OperationLess, Operations(items));
    SumPerm(CallsOf(ShownAs(name)), Sort(OperationLess, Operations(items)), Operations(items));
    OperationsAreTallies(ShownAs(name), items);
    SameTally(Drawn(InTimeline(name)), Called(ShownAs(name)), items);
  }

  /** No two lines of the table share service and operation. */
  lemma {:induction false} CountSpanKeys(ops: seq<Operation>, item: TraceItem, x: (string, string))
    ensures (exists o :: o in CountSpan(ops, item) && (o.service, o.operation) == x)
            <==> x == (item.service, item.operation) || exists o :: o in ops && (o.service, o.operation) == x
  {
    var next := CountSpan(ops, item);
    if ops == [] {
      assert next[0] in next;
    } else if Serves(ops[0], item) {
      assert next[0] in next && ops[0] in ops;
      forall o | o in next ensures o == next[0] || o in ops {}
      forall o | o in ops ensures o == ops[0] || o in next {
        assert o in ops[1..] ==> o in next[1..];
      }
    } else {
      CountSpanKeys(ops[1..], item, x);
      assert next[1..] == CountSpan(ops[1..], item);
      forall o | o in next ensures o == ops[0] || o in next[1..] {}
      forall o | o in ops ensures o == ops[0] || o in ops[1..] {}
      assert next[0] in next && ops[0] in ops;
    }
  }

  ghost predicate DistinctOperations(ops: seq<Operation>) {
    forall a, b :: 0 <= a < b < |ops| ==> (ops[a].service, ops[a].operation) != (ops[b].service, ops[b].operation)
  }

  lemma {:induction false} CountSpanDistinct(ops: seq<Operation>, item: TraceItem)
    requires DistinctOperations(ops)
    ensures DistinctOperations(CountSpan(ops, item))
  {
    if ops != [] && !Serves(ops[0], item) {
      CountSpanDistinct(ops[1..], item);
      var rest := CountSpan(ops[1..], item);
      forall b | 0 <= b < |rest| ensures (rest[b].service, rest[b].operation) != (ops[0].service, ops[0].operation) {
        CountSpanKeys(ops[1..], item, (ops[0].service, ops[0].operation));
        assert rest[b] in rest;
        forall o | o in ops[1..] ensures (o.service, o.operation) != (ops[0].service, ops[0].operation) {
          var k :| 0 <= k < |ops| - 1 && ops[1..][k] == o;
          assert ops[k + 1] == o;
        }
      }
    }
  }

  lemma {:induction false} OperationsDistinct(items: seq<TraceItem>)
    ensures DistinctOperations(Operations(items))
  {
    if items != [] {
      OperationsDistinct(items[..|items| - 1]);
      CountSpanDistinct(Operations(items[..|items| - 1]), items[|items| - 1]);
    }
  }

  lemma {:induction false} LinesCount(ops: seq<Operation>)
    ensures |LinesOf(ops)| == |ops|
  {
    if ops != [] {
      LinesCount(ops[..|ops| - 1]);
    }
  }

  lemma {:induction false} LineAt(ops: seq<Operation>, b: nat)
    requires b < |LinesOf(ops)|
    ensures b < |ops| && LinesOf(ops)[b] == LineOf(ops[b])
  {
    LinesCount(ops[..|ops| - 1]);
    if b < |ops| - 1 {
      LineAt(ops[..|ops| - 1], b);
    }
  }

  /** A line of the table shows one of the operations. */
  lemma {:induction false} LineShows(items: seq<TraceItem>, b: nat) returns (k: nat)
    requires b < |Table(items)|
    ensures k < |Operations(items)| && Table(items)[b] == LineOf(Operations(items)[k])
    ensures b < |Sort(OperationLess, Operations(items))| && Sort(OperationLess, Operations(items))[b] == Operations(items)[k]
  {
    var ops := Operations(items);
    LineAt(Sort(OperationLess, ops), b);
    SortElement(OperationLess, ops, b);
    k :| 0 <= k < |ops| && Sort(OperationLess, ops)[b] == ops[k];
  }

  /** Each line counts exactly the spans of its operation, its errors and its timed spans. */
  lemma {:induction false} OperationIsExact(items: seq<TraceItem>, b: nat)
    requires b < |Table(items)|
    ensures var o := Table(items)[b].op;
      && o.count == Tally(Called(Exactly(o.service, o.operation)), items)
      && o.err == Tally(Failed(Exactly(o.service, o.operation)), items)
      && |o.durations| == Tally(Timed(Exactly(o.service, o.operation)), items)
  {
    var ops := Operations(items);
    var a := LineShows(items, b);
    var p := Exactly(ops[a].service, ops[a].operation);
    OperationsAreTallies(p, items);
    OperationsDistinct(items);
    OnlyOneOf(CallsOf(p), ops, a);
    OnlyOneOf(ErrorsOf(p), ops, a);
    OnlyOneOf(TimedOf(p), ops, a);
  }

  /** The durations of the spans of one operation, in input order. */
  function DurationsOf(items: seq<TraceItem>, x: (string, string)): seq<real> {
    if items == [] then []
    else
      var last := items[|items| - 1];
      DurationsOf(items[..|items| - 1], x)
      + (if last.service == x.0 && last.operation == x.1 && last.duration.Some? then [last.duration.value] else [])
  }

  ghost predicate Known(ops: seq<Operation>, x: (string, string)) {
    exists o :: o in ops && (o.service, o.operation) == x
  }

  lemma {:induction false} UnknownHasNone(items: seq<TraceItem>, x: (string, string))
    requires !Known(Operations(items), x)
    ensures DurationsOf(items, x) == []
  {
    if items != [] {
      CountSpanKeys(Operations(items[..|items| - 1]), items[|items| - 1], x);
      UnknownHasNone(items[..|items| - 1], x);
    }
  }

  /** What one more span makes of the operation at `b`. */
  lemma {:induction false} CountSpanElement(ops: seq<Operation>, item: TraceItem, b: nat)
    requires DistinctOperations(ops) && b < |CountSpan(ops, item)|
    ensures var h := CountSpan(ops, item)[b];
      if b < |ops| then h.service == ops[b].service && h.operation == ops[b].operation
                        && h.durations == ops[b].durations + (if Serves(ops[b], item) then Duration(item) else [])
      else Serves(h, item) && h.durations == Duration(item) && !Known(ops, (item.service, item.operation))
  {
    if ops != [] && b > 0 && !Serves(ops[0], item) {
      CountSpanElement(ops[1..], item, b - 1);
      forall o | o in ops ensures o == ops[0] || o in ops[1..] {}
    }
  }

  /** Each line of the table holds exactly the durations of its spans, in input order. */
  lemma {:induction false} DurationsAreExact(items: seq<TraceItem>, b: nat)
    requires b < |Operations(items)|
    ensures var o := Operations(items)[b]; o.durations == DurationsOf(items, (o.service, o.operation))
  {
    var init, last := items[..|items| - 1], items[|items| - 1];
    var ops := Operations(init);
    OperationsDistinct(init);
    CountSpanElement(ops, last, b);
    if b < |ops| {
      DurationsAreExact(init, b);
    } else {
      UnknownHasNone(init, (last.service, last.operation));
    }
  }

  /** The table lists operations by errors, then by calls, both descending. */
  lemma {:induction false} WorstOperationsFirst(items: seq<TraceItem>, a: nat, b: nat)
    requires a < b < |Table(items)|
    ensures var x, y := Table(items)[a].op, Table(items)[b].op;
      x.err > y.err || (x.err == y.err && x.count >= y.count)
  {
    var ops := Operations(items);
    var dom := set o | o in ops;
    SortAscends(OperationLess, ops, dom);
    var i := LineShows(items, a);
    var j := LineShows(items, b);
  }

  // ------------------------------------------------------------------ timelines count exactly

  ghost predicate DistinctMinutes(minutes: seq<Minute>) {
    forall a, b :: 0 <= a < b < |minutes| ==> minutes[a].minute != minutes[b].minute
  }

  ghost predicate DistinctTimelines(volume: seq<Timeline>) {
    && (forall a, b :: 0 <= a < b < |volume| ==> volume[a].service != volume[b].service)
    && (forall a :: 0 <= a < |volume| ==> DistinctMinutes(volume[a].minutes))
  }

  lemma {:induction false} CountMinuteNames(minutes: seq<Minute>, m: string, b: nat)
    requires b < |CountMinute(minutes, m)|
    ensures CountMinute(minutes, m)[b].minute == if b < |minutes| then minutes[b].minute else m
  {
    if minutes != [] && minutes[0].minute != m && b > 0 {
      CountMinuteNames(minutes[1..], m, b - 1);
    }
  }

  lemma {:induction false} CountMinuteDistinct(minutes: seq<Minute>, m: string)
    requires DistinctMinutes(minutes)
    ensures DistinctMinutes(CountMinute(minutes, m))
  {
    if minutes != [] && minutes[0].minute != m {
      CountMinuteDistinct(minutes[1..], m);
      var rest := CountMinute(minutes[1..], m);
      forall b | 0 <= b < |rest| ensures rest[b].minute != minutes[0].minute {
        CountMinuteNames(minutes[1..], m, b);
      }
    }
  }

  lemma {:induction false} CountVolumeNames(volume: seq<Timeline>, service: string, m: string, b: nat)
    requires b < |CountVolume(volume, service, m)|
    ensures CountVolume(volume, service, m)[b].service == if b < |volume| then volume[b].service else service
  {
    if volume != [] && volume[0].service != service && b > 0 {
      CountVolumeNames(volume[1..], service, m, b - 1);
    }
  }

  lemma {:induction false} CountVolumeDistinct(volume: seq<Timeline>, service: string, m: string)
    requires DistinctTimelines(volume)
    ensures DistinctTimelines(CountVolume(volume, service, m))
  {
    if volume == [] {
      CountMinuteDistinct([], m);
    } else if volume[0].service == service {
      CountMinuteDistinct(volume[0].minutes, m);
    } else {
      CountVolumeDistinct(volume[1..], service, m);
      var rest := CountVolume(volume[1..], service, m);
      forall b | 0 <= b < |rest| ensures rest[b].service != volume[0].service {
        CountVolumeNames(volume[1..], service, m, b);
      }
    }
  }

  lemma {:induction false} VolumeDistinct(items: seq<TraceItem>)
    ensures DistinctTimelines(Volume(items))
  {
    if items != [] {
      var last := items[|items| - 1];
      VolumeDistinct(items[..|items| - 1]);
      CountVolumeDistinct(Volume(items[..|items| - 1]), Shown(last.service), last.minute);
    }
  }

  /** The timelines of the digest. */
  function Drawing(items: seq<TraceItem>): seq<Timeline> {
    TimelinesOf(Sort(TimelineLess, Volume(items)))
  }

  lemma {:induction false} TimelineAt(volume: seq<Timeline>, a: nat)
    requires a < |volume|
    ensures |TimelinesOf(volume)| == |volume| && TimelinesOf(volume)[a] == SortedMinutes(volume[a])
  {
    if a == |volume| - 1 {
      TimelinesCount(volume[..a]);
    } else {
      TimelineAt(volume[..|volume| - 1], a);
    }
  }

  lemma {:induction false} TimelinesCount(volume: seq<Timeline>)
    ensures |TimelinesOf(volume)| == |volume|
  {
    if volume != [] {
      TimelinesCount(volume[..|volume| - 1]);
    }
  }

  /** A drawn timeline is one that was counted, with its minutes sorted. */
  lemma {:induction false} DrawnTimeline(items: seq<TraceItem>, a: nat) returns (k: nat)
    requires a < |Drawing(items)|
    ensures a < |Sort(TimelineLess, Volume(items))| && k < |Volume(items)|
    ensures Sort(TimelineLess, Volume(items))[a] == Volume(items)[k] && Drawing(items)[a] == SortedMinutes(Volume(items)[k])
  {
    var sorted := Sort(TimelineLess, Volume(items));
    TimelinesCount(sorted);
    TimelineAt(sorted, a);
    SortElement(TimelineLess, Volume(items), a);
    k :| 0 <= k < |Volume(items)| && sorted[a] == Volume(items)[k];
  }

  /** Each entry of a drawn timeline counts exactly the spans shown under that name in that minute. */
  lemma {:induction false} MinuteIsExact(items: seq<TraceItem>, a: nat, m: Minute)
    requires a < |Drawing(items)| && m in Drawing(items)[a].minutes
    ensures m.spans == Tally(Drawn(Exactly(Drawing(items)[a].service, m.minute)), items)
  {
    var k := DrawnTimeline(items, a);
    var minutes := Volume(items)[k].minutes;
    SortPerm(MinuteLess, minutes);
    SamePermElements(Sort(MinuteLess, minutes), minutes);
    CountedExactly(items, Volume(items)[k], m);
  }

  lemma {:induction false} CountedExactly(items: seq<TraceItem>, t: Timeline, m: Minute)
    requires t in Volume(items) && m in t.minutes
    ensures m.spans == Tally(Drawn(Exactly(t.service, m.minute)), items)
  {
    var q := Exactly(t.service, m.minute);
    var volume := Volume(items);
    VolumeIsTally(q, items);
    VolumeDistinct(items);
    var a :| 0 <= a < |volume| && volume[a] == t;
    var k :| 0 <= k < |t.minutes| && t.minutes[k] == m;
    OnlyOneOf(SpansOf(q, t.service), t.minutes, k);
    forall b | 0 <= b < |volume| && b != a ensures VolumeOf(q)(volume[b]) == 0 {
      AllZero(SpansOf(q, volume[b].service), volume[b].minutes);
    }
    OnlyOneOf(VolumeOf(q), volume, a);
  }

  // ------------------------------------------------------------------ the order of the timelines

  lemma TimelineLessWeak(dom: set<Timeline>)
    ensures Weak(TimelineLess, dom)
  {
    forall x, y | x in dom && y in dom && TimelineLess(x, y) ensures !TimelineLess(y, x) {
      StringOrder(x.service, y.service);
    }
    forall x, y, z | x in dom && y in dom && z in dom && TimelineLess(x, z) ensures TimelineLess(x, y) || TimelineLess(y, z) {
      StringChain(x.service, y.service, z.service);
    }
  }

  lemma MinuteLessWeak(dom: set<Minute>)
    ensures Weak(MinuteLess, dom)
  {
    forall x, y | x in dom && y in dom && MinuteLess(x, y) ensures !MinuteLess(y, x) {
      StringOrder(x.minute, y.minute);
    }
    forall x, y, z | x in dom && y in dom && z in dom && MinuteLess(x, z) ensures MinuteLess(x, y) || MinuteLess(y, z) {
      StringChain(x.minute, y.minute, z.minute);
    }
  }

  /** A list sorted by distinct names ascends strictly. */
  lemma {:induction false} SortedByName<T>(less: (T, T) -> bool, name: T -> string, s: seq<T>, dom: set<T>, a: nat, b: nat)
    requires Weak(less, dom) && Within(s, dom) && a < b < |Sort(less, s)|
    requires forall i, j :: 0 <= i < |s| && 0 <= j < |s| ==> (less(s[i], s[j]) <==> StringLess(name(s[i]), name(s[j])))
    requires forall i, j :: 0 <= i < j < |s| ==> name(s[i]) != name(s[j])
    ensures Alphabetical(name(Sort(less, s)[a]), name(Sort(less, s)[b]))
  {
    var apart := (x: T, y: T) => name(x) != name(y);
    SortIsStable(less, apart, s, dom);
    SortElement(less, s, a);
    SortElement(less, s, b);
    var x, y := Sort(less, s)[a], Sort(less, s)[b];
    StringOrder(name(x), name(y));
    StringLessMeans(name(x), name(y));
  }

  function ServiceName(t: Timeline): string {
    t.service
  }

  function MinuteName(m: Minute): string {
    m.minute
  }

  /** The timelines are drawn in the alphabetical order of their services. */
  lemma {:induction false} TimelinesInOrder(items: seq<TraceItem>, a: nat, b: nat)
    requires a < b < |Drawing(items)|
    ensures Alphabetical(Drawing(items)[a].service, Drawing(items)[b].service)
  {
    var volume := Volume(items);
    var dom := set t | t in volume;
    TimelineLessWeak(dom);
    VolumeDistinct(items);
    TimelinesCount(Sort(TimelineLess, volume));
    SortedByName(TimelineLess, ServiceName, volume, dom, a, b);
    var i := DrawnTimeline(items, a);
    var j := DrawnTimeline(items, b);
  }

  /** Inside a timeline the minutes ascend. */
  lemma {:induction false} MinutesInOrder(items: seq<TraceItem>, t: nat, a: nat, b: nat)
    requires t < |Drawing(items)| && a < b < |Drawing(items)[t].minutes|
    ensures Alphabetical(Drawing(items)[t].minutes[a].minute, Drawing(items)[t].minutes[b].minute)
  {
    var k := DrawnTimeline(items, t);
    var minutes := Volume(items)[k].minutes;
    var dom := set m | m in minutes;
    MinuteLessWeak(dom);
    VolumeDistinct(items);
    SortedByName(MinuteLess, MinuteName, minutes, dom, a, b);
  }

  // ------------------------------------------------------------------ percentiles

  lemma RoundMonotone(x: real, y: real)
    requires x <= y
    ensures Round(x) <= Round(y)
  {
  }

  /** Rounding stays within half a unit. */
  lemma RoundNear(x: real)
    ensures x - 0.5 <= Round(x) as real <= x + 0.5
  {
  }

  lemma ProductMonotone(p: real, q: real, m: real, x: real, y: real)
    requires p <= q && m >= 0.0 && x == p * m && y == q * m
    ensures x <= y
  {
    assert y - x == (q - p) * m;
  }

  lemma RankMonotone(p: real, q: real, n: nat)
    requires p <= q && n > 0
    ensures Rank(p, n) <= Rank(q, n)
  {
    ProductMonotone(p, q, n as real - 1.0, Scaled(p, n), Scaled(q, n));
    RoundMonotone(Scaled(p, n), Scaled(q, n));
  }

  lemma MedianRank(n: nat)
    requires n > 0
    ensures 2 * (Rank(0.5, n) + 1) >= n && 2 * (n - Rank(0.5, n)) >= n
  {
    RoundNear(Scaled(0.5, n));
  }

  /** `k` is the integer nearest to `share`, the even one of two. */
  predicate Nearest(k: int, share: real) {
    share - 0.5 <= k as real <= share + 0.5 && (k as real == share - 0.5 || k as real == share + 0.5 ==> k % 2 == 0)
  }

  lemma RoundIsNearest(x: real)
    ensures Nearest(Round(x), x)
  {
  }

  /** A percentile is the element whose rank is nearest to its share. */
  lemma PercentileRank(sorted: seq<real>, p: real)
    requires sorted != [] && 0.0 <= p <= 1.0
    ensures var k := Rank(p, |sorted|);
      Percentile(sorted, p) == sorted[k] && Nearest(k, p * (|sorted| as real - 1.0))
  {
    var n := |sorted|;
    ProductMonotone(0.0, p, n as real - 1.0, 0.0, Scaled(p, n));
    ProductMonotone(p, 1.0, n as real - 1.0, Scaled(p, n), n as real - 1.0);
    RoundNear(Scaled(p, n));
    RoundIsNearest(Scaled(p, n));
  }

  ghost predicate NonDecreasing(s: seq<real>) {
    forall a, b :: 0 <= a < b < |s| ==> s[a] <= s[b]
  }

  lemma PercentileMonotone(s: seq<real>, p: real, q: real)
    requires s != [] && NonDecreasing(s) && p <= q
    ensures Percentile(s, p) <= Percentile(s, q) <= s[|s| - 1]
  {
    RankMonotone(p, q, |s|);
  }

  lemma {:induction false} SortedDurations(durations: seq<real>)
    ensures NonDecreasing(Sort(RealLess, durations)) && multiset(Sort(RealLess, durations)) == multiset(durations)
  {
    var dom := set d | d in durations;
    SortPerm(RealLess, durations);
    SortAscends(RealLess, durations, dom);
  }

  lemma {:induction false} LastIsGreatest(durations: seq<real>)
    requires durations != []
    ensures var ds := Sort(RealLess, durations);
      |ds| == |durations| && forall d :: d in durations ==> d <= ds[|ds| - 1]
  {
    var ds := Sort(RealLess, durations);
    SortedDurations(durations);
    SamePermElements(ds, durations);
    forall d | d in durations ensures d <= ds[|ds| - 1] {
      assert d in ds;
    }
  }

  /** For every list of durations p50 <= p95 <= max, and each of them is one of the durations. */
  lemma LatencyOrder(durations: seq<real>)
    requires durations != []
    ensures var l := LatencyOf(durations);
      l.Latency? && l.p50 <= l.p95 <= l.max && l.p50 in durations && l.p95 in durations && l.max in durations
    ensures forall d :: d in durations ==> d <= LatencyOf(durations).max
  {
    LastIsGreatest(durations);
    SortedDurations(durations);
    SamePermElements(Sort(RealLess, durations), durations);
    LatencyInOrder(Sort(RealLess, durations));
  }

  /** The three figures read off a sorted list. */
  lemma LatencyInOrder(ds: seq<real>)
    requires ds != [] && NonDecreasing(ds)
    ensures Percentile(ds, 0.5) <= Percentile(ds, 0.95) <= ds[|ds| - 1]
    ensures Percentile(ds, 0.5) in ds && Percentile(ds, 0.95) in ds && ds[|ds| - 1] in ds
  {
    PercentileMonotone(ds, 0.5, 0.95);
  }

  lemma {:induction false} MedianAt(durations: seq<real>)
    requires durations != []
    ensures |Sort(RealLess, durations)| == |durations|
    ensures LatencyOf(durations).p50 == Sort(RealLess, durations)[Rank(0.5, |durations|)]
  {
    SortPerm(RealLess, durations);
  }

  /** p50 is a median: at least half of the durations stand up to it in sorted order and at least half from it on. */
  lemma MedianSplits(durations: seq<real>) returns (k: nat)
    requires durations != []
    ensures var ds := Sort(RealLess, durations);
      && |ds| == |durations| && k < |ds| && ds[k] == LatencyOf(durations).p50
      && 2 * (k + 1) >= |ds| && 2 * (|ds| - k) >= |ds| && NonDecreasing(ds)
  {
    MedianAt(durations);
    SortedDurations(durations);
    MedianRank(|durations|);
    k := Rank(0.5, |durations|);
  }

  /** The figures stand at the ranks nearest to one half and to nineteen twentieths of the way, and at the end. */
  predicate Ranked(ds: seq<real>, l: Latency, j: nat, k: nat) {
    var n := |ds| as real;
    && j < |ds| && k < |ds| && l.Latency?
    && l.p50 == ds[j] && Nearest(j, (n - 1.0) / 2.0)
    && l.p95 == ds[k] && Nearest(k, (n - 1.0) * 19.0 / 20.0)
    && l.max == ds[|ds| - 1]
  }

  lemma LatencyRanks(durations: seq<real>) returns (j: nat, k: nat)
    requires durations != []
    ensures Ranked(Sort(RealLess, durations), LatencyOf(durations), j, k)
  {
    var ds := Sort(RealLess, durations);
    SortPerm(RealLess, durations);
    PercentileRank(ds, 0.5);
    PercentileRank(ds, 0.95);
    j, k := Rank(0.5, |ds|), Rank(0.95, |ds|);
  }

  /**
   A line's latency is read off the sorted durations of exactly the spans of its operation; it has none
   when none of them was timed.
   */
  lemma {:induction false} LatencyOfLine(items: seq<TraceItem>, b: nat)
    requires b < |Table(items)|
    ensures var line := Table(items)[b]; var durations := DurationsOf(items, (line.op.service, line.op.operation));
      if durations == [] then line.latency.NoLatency?
      else
        NonDecreasing(Sort(RealLess, durations)) && multiset(Sort(RealLess, durations)) == multiset(durations)
        && exists j: nat, k: nat :: Ranked(Sort(RealLess, durations), line.latency, j, k)
  {
    var a := LineShows(items, b);
    DurationsAreExact(items, a);
    var durations := Operations(items)[a].durations;
    if durations != [] {
      SortedDurations(durations);
      var j, k := LatencyRanks(durations);
    }
  }
}
