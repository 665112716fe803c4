/** `compress_logs` and `service_error_counts`: what the log digest says agrees with simple counts. */
module LogCompression {
  import opened Wrappers
  import opened Sorting
  import opened PyDict
  import opened Sums
  import opened Signals

  datatype LogKey = LogKey(service: string, level: Level, cluster: nat)

  /** A log line and what its service's template miner answered for it. */
  datatype Line = Line(item: LogItem, cluster: nat, template: string)

  /** One digest line; `first` and `last` are positions in the input. */
  datatype Pattern = Pattern(key: LogKey, count: nat, base: nat, incid: nat, first: nat, last: nat, template: string)

  /** Occurrences during normal operation, by service, level and template. */
  type Profile = map<(string, Level, string), nat>

  function KeyOf(l: Line): LogKey {
    LogKey(l.item.service, l.item.level, l.cluster)
  }

  function Base(isBase: bool): nat {
    if isBase then 1 else 0
  }

  /** Enter a new group, or update the counters of a known one. */
  function Absorb(ps: seq<Pattern>, l: Line, isBase: bool, idx: nat): seq<Pattern> {
    if ps == [] then [Pattern(KeyOf(l), 1, Base(isBase), Base(!isBase), idx, idx, l.template)]
    else if ps[0].key == KeyOf(l) then
      [ps[0].(count := ps[0].count + 1, base := ps[0].base + Base(isBase), incid := ps[0].incid + Base(!isBase), last := idx)] + ps[1..]
    else [ps[0]] + Absorb(ps[1..], l, isBase, idx)
  }

  /** The groups after the first `n` lines, in order of first appearance. */
  function Patterns(lines: seq<Line>, trigger: Option<Stamp>, n: nat): seq<Pattern>
    requires n <= |lines|
  {
    if n == 0 then []
    else Absorb(Patterns(lines, trigger, n - 1), lines[n - 1], IsBase(trigger, lines[n - 1].item.time), n - 1)
  }

  function Baseline(profile: Profile, g: Pattern): nat {
    var k := (g.key.service, g.key.level, g.template);
    if k in profile then profile[k] else 0
  }

  /** How unusual a pattern is: incident lines against base lines, normal occurrences and one. */
  function Surprise(profile: Profile, g: Pattern): real {
    g.incid as real / (g.base + Baseline(profile, g) + 1) as real
  }

  /** `sort_key`: surprise counts only when there is a trigger. */
  function PatternLess(triggered: bool, profile: Profile): (Pattern, Pattern) -> bool {
    (a: Pattern, b: Pattern) =>
      var sa := if triggered then Surprise(profile, a) else 0.0;
      var sb := if triggered then Surprise(profile, b) else 0.0;
      var la, lb := LevelOrder(a.key.level), LevelOrder(b.key.level);
      sa > sb || (sa == sb && (la < lb || (la == lb && a.count > b.count)))
  }

  /** Some line's time and the trigger's are one naive, one aware. */
  ghost predicate MixedLines(lines: seq<Line>, trigger: Option<Stamp>) {
    trigger.Some?
    && exists i :: 0 <= i < |lines| && lines[i].item.time.Some? && lines[i].item.time.value.aware != trigger.value.aware
  }

  /** One pass over the lines; comparing a naive with an aware time fails. */
  method CollectPatterns(lines: seq<Line>, trigger: Option<Stamp>) returns (r: Outcome<seq<Pattern>>)
    ensures r.MixedZones? <==> MixedLines(lines, trigger)
    ensures r.Ok? ==> r.value == Patterns(lines, trigger, |lines|)
  {
    var groups: seq<Pattern> := [];
    for idx := 0 to |lines|
      invariant groups == Patterns(lines, trigger, idx)
      invariant forall i :: 0 <= i < idx ==> Comparable(trigger, lines[i].item.time)
    {
      if !Comparable(trigger, lines[idx].item.time) {
        return MixedZones;
      }
      groups := Absorb(groups, lines[idx], IsBase(trigger, lines[idx].item.time), idx);
    }
    r := Ok(groups);
  }

  method CompressLogs(lines: seq<Line>, trigger: Option<Stamp>, profile: Profile) returns (r: Outcome<seq<Pattern>>)
    ensures r.MixedZones? <==> MixedLines(lines, trigger)
    ensures r.Ok? ==> r.value == Sort(PatternLess(trigger.Some?, profile), Patterns(lines, trigger, |lines|))
  {
    r := CollectPatterns(lines, trigger);
    if r.Ok? {
      r := Ok(Sort(PatternLess(trigger.Some?, profile), r.value));
    }
  }

  /** One naive line among aware ones is enough. */
  lemma NaiveLineFails(lines: seq<Line>, i: nat, at: int, when: int)
    requires i < |lines| && lines[i].item.time == Some(Stamp(at, false))
    ensures MixedLines(lines, Some(Stamp(when, true)))
  {
    assert lines[i].item.time.value.aware != Some(Stamp(when, true)).value.aware;
  }

  // ------------------------------------------------------------------ the groups are exact counts

  function CountOf(p: LogKey -> bool): Pattern -> int {
    (g: Pattern) => if p(g.key) then g.count else 0
  }

  function BaseOf(p: LogKey -> bool): Pattern -> int {
    (g: Pattern) => if p(g.key) then g.base else 0
  }

  function Lines(p: LogKey -> bool): Line -> bool {
    (l: Line) => p(LogKey(l.item.service, l.item.level, l.cluster))
  }

  function BaseLines(p: LogKey -> bool, trigger: Option<Stamp>): Line -> bool {
    (l: Line) => p(LogKey(l.item.service, l.item.level, l.cluster)) && Precedes(l.item.time, trigger)
  }

  /** One more line raises every total it belongs to by what it contributes, and no other. */
  lemma {:induction false} AbsorbAdds(f: Pattern -> int, ps: seq<Pattern>, l: Line, isBase: bool, idx: nat, gain: int)
    requires forall g: Pattern :: g.key == KeyOf(l) ==>
               f(g.(count := g.count + 1, base := g.base + Base(isBase), incid := g.incid + Base(!isBase), last := idx)) == f(g) + gain
    requires f(Pattern(KeyOf(l), 1, Base(isBase), Base(!isBase), idx, idx, l.template)) == gain
    ensures SumBy(f, Absorb(ps, l, isBase, idx)) == SumBy(f, ps) + gain
  {
    var next := Absorb(ps, l, isBase, idx);
    SumHead(f, next);
    if ps != [] {
      SumHead(f, ps);
      if ps[0].key == KeyOf(l) {
        assert next[1..] == ps[1..];
      } else {
        AbsorbAdds(f, ps[1..], l, isBase, idx, gain);
        assert next[1..] == Absorb(ps[1..], l, isBase, idx);
      }
    }
  }

  lemma {:induction false} AbsorbCounts(p: LogKey -> bool, ps: seq<Pattern>, l: Line, isBase: bool, idx: nat)
    ensures SumBy(CountOf(p), Absorb(ps, l, isBase, idx)) == SumBy(CountOf(p), ps) + if p(KeyOf(l)) then 1 else 0
    ensures SumBy(BaseOf(p), Absorb(ps, l, isBase, idx)) == SumBy(BaseOf(p), ps) + if p(KeyOf(l)) && isBase then 1 else 0
  {
    AbsorbAdds(CountOf(p), ps, l, isBase, idx, if p(KeyOf(l)) then 1 else 0);
    AbsorbAdds(BaseOf(p), ps, l, isBase, idx, if p(KeyOf(l)) && isBase then 1 else 0);
  }

  /** Whatever keys one looks at, the groups add up to the lines that have them, before the trigger and in all. */
  lemma {:induction false} VolumesAreTallies(p: LogKey -> bool, lines: seq<Line>, trigger: Option<Stamp>, n: nat)
    requires n <= |lines|
    ensures SumBy(CountOf(p), Patterns(lines, trigger, n)) == Tally(Lines(p), lines[..n])
    ensures SumBy(BaseOf(p), Patterns(lines, trigger, n)) == Tally(BaseLines(p, trigger), lines[..n])
  {
    if n > 0 {
      VolumesAreTallies(p, lines, trigger, n - 1);
      assert lines[..n][..n - 1] == lines[..n - 1];
      var ps := Patterns(lines, trigger, n - 1);
      var l := lines[n - 1];
      var isBase := IsBase(trigger, l.item.time);
      assert isBase == Precedes(l.item.time, trigger);
      AbsorbCounts(p, ps, l, isBase, n - 1);
    }
  }

  // ------------------------------------------------------------------ the shape of the groups

  /** Service, level and cluster of a line are those of the key. */
  predicate Bears(l: Line, k: LogKey) {
    l.item.service == k.service && l.item.level == k.level && l.cluster == k.cluster
  }

  /** `first` and `last` are the first and the last line of the pattern; the template is the first line's. */
  ghost predicate Spans(lines: seq<Line>, n: nat, g: Pattern)
    requires n <= |lines|
  {
    && g.first <= g.last < n && Bears(lines[g.first], g.key) && Bears(lines[g.last], g.key)
    && lines[g.first].template == g.template
    && (forall i :: 0 <= i < n && Bears(lines[i], g.key) ==> g.first <= i <= g.last)
  }

  predicate Splits(g: Pattern) {
    g.count == g.base + g.incid && g.count > 0
  }

  ghost predicate AllSplit(ps: seq<Pattern>) {
    forall a :: 0 <= a < |ps| ==> Splits(ps[a])
  }

  lemma {:induction false} AbsorbSplits(ps: seq<Pattern>, l: Line, isBase: bool, idx: nat)
    requires AllSplit(ps)
    ensures AllSplit(Absorb(ps, l, isBase, idx))
  {
    if ps != [] && ps[0].key != KeyOf(l) {
      AbsorbSplits(ps[1..], l, isBase, idx);
    }
  }

  /** Different keys, in order of first appearance, all before line `n`. */
  ghost predicate InOrder(ps: seq<Pattern>, n: nat) {
    && (forall a, b :: 0 <= a < b < |ps| ==> ps[a].key != ps[b].key && ps[a].first < ps[b].first)
    && (forall a :: 0 <= a < |ps| ==> ps[a].first < n)
  }

  ghost predicate Listed(ps: seq<Pattern>, k: LogKey) {
    exists a :: 0 <= a < |ps| && ps[a].key == k
  }

  /** What one more line makes of the group at `b`. */
  lemma {:induction false} AbsorbElement(ps: seq<Pattern>, l: Line, isBase: bool, idx: nat, b: nat)
    requires b < |Absorb(ps, l, isBase, idx)| && InOrder(ps, idx)
    ensures var h := Absorb(ps, l, isBase, idx)[b];
      if b < |ps| then h.key == ps[b].key && h.first == ps[b].first && h.template == ps[b].template
                       && h.last == (if ps[b].key == KeyOf(l) then idx else ps[b].last)
      else h.key == KeyOf(l) && h.first == h.last == idx && h.template == l.template && !Listed(ps, KeyOf(l))
  {
    if ps != [] && ps[0].key != KeyOf(l) && b > 0 {
      AbsorbElement(ps[1..], l, isBase, idx, b - 1);
      ListedLater(ps, KeyOf(l));
    }
  }

  lemma ListedLater(ps: seq<Pattern>, k: LogKey)
    requires ps != [] && ps[0].key != k
    ensures Listed(ps, k) ==> Listed(ps[1..], k)
  {
    if Listed(ps, k) {
      var a :| 0 <= a < |ps| && ps[a].key == k;
      assert ps[1..][a - 1].key == k;
    }
  }

  lemma {:induction false} AbsorbInOrder(ps: seq<Pattern>, l: Line, isBase: bool, idx: nat)
    requires InOrder(ps, idx)
    ensures InOrder(Absorb(ps, l, isBase, idx), idx + 1)
  {
    if ps != [] && ps[0].key != KeyOf(l) {
      AbsorbInOrder(ps[1..], l, isBase, idx);
      var rest := Absorb(ps[1..], l, isBase, idx);
      forall b | 0 <= b < |rest| ensures rest[b].key != ps[0].key && rest[b].first > ps[0].first {
        AbsorbElement(ps[1..], l, isBase, idx, b);
      }
    }
  }

  lemma {:induction false} AbsorbLists(ps: seq<Pattern>, l: Line, isBase: bool, idx: nat, k: LogKey)
    requires k == KeyOf(l) || Listed(ps, k)
    ensures Listed(Absorb(ps, l, isBase, idx), k)
  {
    var next := Absorb(ps, l, isBase, idx);
    assert next[0].key == k ==> Listed(next, k);
    if next[0].key != k {
      if k != KeyOf(l) {
        var a :| 0 <= a < |ps| && ps[a].key == k;
        assert ps[1..][a - 1].key == k;
      }
      if ps[0].key == KeyOf(l) {
        var a :| 0 <= a < |ps| && ps[a].key == k;
        assert next[a].key == k;
      } else {
        AbsorbLists(ps[1..], l, isBase, idx, k);
        var a :| 0 <= a < |next| - 1 && next[1..][a].key == k;
        assert next[a + 1].key == k;
      }
    }
  }

  lemma {:induction false} PatternsInOrder(lines: seq<Line>, trigger: Option<Stamp>, n: nat)
    requires n <= |lines|
    ensures InOrder(Patterns(lines, trigger, n), n)
  {
    if n > 0 {
      PatternsInOrder(lines, trigger, n - 1);
      AbsorbInOrder(Patterns(lines, trigger, n - 1), lines[n - 1], IsBase(trigger, lines[n - 1].item.time), n - 1);
    }
  }

  lemma {:induction false} PatternsSplit(lines: seq<Line>, trigger: Option<Stamp>, n: nat)
    requires n <= |lines|
    ensures AllSplit(Patterns(lines, trigger, n))
  {
    if n > 0 {
      PatternsSplit(lines, trigger, n - 1);
      AbsorbSplits(Patterns(lines, trigger, n - 1), lines[n - 1], IsBase(trigger, lines[n - 1].item.time), n - 1);
    }
  }

  /** Every line has a group. */
  lemma {:induction false} LineListed(lines: seq<Line>, trigger: Option<Stamp>, n: nat, i: nat)
    requires i < n <= |lines|
    ensures Listed(Patterns(lines, trigger, n), KeyOf(lines[i]))
  {
    if i < n - 1 {
      LineListed(lines, trigger, n - 1, i);
    }
    AbsorbLists(Patterns(lines, trigger, n - 1), lines[n - 1], IsBase(trigger, lines[n - 1].item.time), n - 1, KeyOf(lines[i]));
  }

  /** One more line of another pattern leaves a group as it is; one of its own becomes its last. */
  lemma ExtendSpan(lines: seq<Line>, n: nat, g: Pattern, h: Pattern)
    requires 0 < n <= |lines| && Spans(lines, n - 1, g) && h.key == g.key && h.first == g.first && h.template == g.template
    requires h.last == if KeyOf(lines[n - 1]) == g.key then n - 1 else g.last
    ensures Spans(lines, n, h)
  {
  }

  lemma NewSpan(lines: seq<Line>, n: nat, h: Pattern)
    requires 0 < n <= |lines| && h.key == KeyOf(lines[n - 1]) && h.first == h.last == n - 1 && h.template == lines[n - 1].template
    requires forall i :: 0 <= i < n - 1 ==> KeyOf(lines[i]) != h.key
    ensures Spans(lines, n, h)
  {
  }

  /** A key without a group belongs to no line so far. */
  lemma {:induction false} Unlisted(lines: seq<Line>, trigger: Option<Stamp>, n: nat, k: LogKey)
    requires n <= |lines| && !Listed(Patterns(lines, trigger, n), k)
    ensures forall i :: 0 <= i < n ==> KeyOf(lines[i]) != k
  {
    forall i | 0 <= i < n ensures KeyOf(lines[i]) != k {
      LineListed(lines, trigger, n, i);
    }
  }

  /** Line `l` has no group yet only if no earlier line bears its key. */
  ghost predicate NewIsNew(lines: seq<Line>, n: nat, ps: seq<Pattern>, k: LogKey)
    requires n <= |lines|
  {
    Listed(ps, k) || forall i :: 0 <= i < n ==> KeyOf(lines[i]) != k
  }

  /** The group at `b` after line `n - 1`. */
  lemma SpanNext(lines: seq<Line>, n: nat, ps: seq<Pattern>, isBase: bool, b: nat)
    requires 0 < n <= |lines| && b < |Absorb(ps, lines[n - 1], isBase, n - 1)|
    ensures InOrder(ps, n - 1) && NewIsNew(lines, n - 1, ps, KeyOf(lines[n - 1])) && (b < |ps| ==> Spans(lines, n - 1, ps[b]))
            ==> Spans(lines, n, Absorb(ps, lines[n - 1], isBase, n - 1)[b])
  {
    var h := Absorb(ps, lines[n - 1], isBase, n - 1)[b];
    if InOrder(ps, n - 1) && NewIsNew(lines, n - 1, ps, KeyOf(lines[n - 1])) && (b < |ps| ==> Spans(lines, n - 1, ps[b])) {
      AbsorbElement(ps, lines[n - 1], isBase, n - 1, b);
      if b < |ps| {
        ExtendSpan(lines, n, ps[b], h);
      } else {
        NewSpan(lines, n, h);
      }
    }
  }

  lemma {:induction false} PatternsNew(lines: seq<Line>, trigger: Option<Stamp>, n: nat, k: LogKey)
    requires n <= |lines|
    ensures NewIsNew(lines, n, Patterns(lines, trigger, n), k)
  {
    if !Listed(Patterns(lines, trigger, n), k) {
      Unlisted(lines, trigger, n, k);
    }
  }

  lemma {:induction false} StepSpans(lines: seq<Line>, trigger: Option<Stamp>, n: nat, b: nat)
    requires 0 < n <= |lines| && b < |Patterns(lines, trigger, n)|
    ensures var ps := Patterns(lines, trigger, n - 1);
      (b < |ps| ==> Spans(lines, n - 1, ps[b])) ==> Spans(lines, n, Patterns(lines, trigger, n)[b])
  {
    PatternsInOrder(lines, trigger, n - 1);
    PatternsNew(lines, trigger, n - 1, KeyOf(lines[n - 1]));
    SpanNext(lines, n, Patterns(lines, trigger, n - 1), IsBase(trigger, lines[n - 1].item.time), b);
  }

  lemma {:induction false} PatternSpans(lines: seq<Line>, trigger: Option<Stamp>, n: nat, b: nat)
    requires n <= |lines| && b < |Patterns(lines, trigger, n)|
    ensures Spans(lines, n, Patterns(lines, trigger, n)[b])
  {
    if b < |Patterns(lines, trigger, n - 1)| {
      PatternSpans(lines, trigger, n - 1, b);
    }
    StepSpans(lines, trigger, n, b);
  }

  function Is(k: LogKey): LogKey -> bool {
    (x: LogKey) => x == k
  }

  /** Each pattern counts exactly the lines of its key, split at the trigger. */
  lemma {:induction false} PatternIsExact(lines: seq<Line>, trigger: Option<Stamp>, g: Pattern)
    requires g in Patterns(lines, trigger, |lines|)
    ensures g.count == Tally(Lines(Is(g.key)), lines) && g.base == Tally(BaseLines(Is(g.key), trigger), lines)
    ensures Splits(g) && Spans(lines, |lines|, g)
  {
    var n := |lines|;
    var ps := Patterns(lines, trigger, n);
    var p := Is(g.key);
    VolumesAreTallies(p, lines, trigger, n);
    PatternsInOrder(lines, trigger, n);
    PatternsSplit(lines, trigger, n);
    assert lines[..n] == lines;
    var a :| 0 <= a < |ps| && ps[a] == g;
    PatternSpans(lines, trigger, n, a);
    OnlyOneOf(CountOf(p), ps, a);
    OnlyOneOf(BaseOf(p), ps, a);
  }

  function Any(): LogKey -> bool {
    (x: LogKey) => true
  }

  lemma {:induction false} TallyAll<T>(p: T -> bool, s: seq<T>)
    requires forall i :: 0 <= i < |s| ==> p(s[i])
    ensures Tally(p, s) == |s|
  {
    if s != [] {
      TallyAll(p, s[..|s| - 1]);
    }
  }

  /** The counts of the digest lines add up to the number of log lines. */
  lemma {:induction false} CountsSumToLines(lines: seq<Line>, trigger: Option<Stamp>, profile: Profile)
    ensures SumBy(CountOf(Any()), Sort(PatternLess(trigger.Some?, profile), Patterns(lines, trigger, |lines|))) == |lines|
  {
    var ps := Patterns(lines, trigger, |lines|);
    VolumesAreTallies(Any(), lines, trigger, |lines|);
    assert lines[..|lines|] == lines;
    TallyAll(Lines(Any()), lines);
    SortPerm(PatternLess(trigger.Some?, profile), ps);
    SumPerm(CountOf(Any()), Sort(PatternLess(trigger.Some?, profile), ps), ps);
  }

  // ------------------------------------------------------------------ error counts

  function ErrorOf(s: string): LogItem -> bool {
    (i: LogItem) => i.service == s && ErrorLevel(i.level)
  }

  function Get(counts: map<string, nat>, s: string): nat {
    if s in counts then counts[s] else 0
  }

  /** `service_error_counts`: a service appears exactly when it has an error line. */
  method ServiceErrorCounts(logs: seq<LogItem>) returns (counts: map<string, nat>)
    ensures forall s :: Get(counts, s) == Tally(ErrorOf(s), logs)
    ensures forall s :: s in counts <==> Tally(ErrorOf(s), logs) > 0
  {
    counts := map[];
    for n := 0 to |logs|
      invariant forall s :: Get(counts, s) == Tally(ErrorOf(s), logs[..n])
      invariant forall s :: s in counts ==> counts[s] > 0
    {
      var item := logs[n];
      assert logs[..n + 1][..n] == logs[..n];
      if ErrorLevel(item.level) {
        counts := counts[item.service := Get(counts, item.service) + 1];
      }
    }
    assert logs[..|logs|] == logs;
  }

  function ErrorKeyOf(s: string): LogKey -> bool {
    (k: LogKey) => k.service == s && ErrorLevel(k.level)
  }

  function ItemsOf(lines: seq<Line>): (r: seq<LogItem>)
    ensures |r| == |lines| && forall i :: 0 <= i < |r| ==> r[i] == lines[i].item
  {
    seq(|lines|, i requires 0 <= i < |lines| => lines[i].item)
  }

  lemma {:induction false} ErrorLinesTally(lines: seq<Line>, s: string)
    ensures Tally(Lines(ErrorKeyOf(s)), lines) == Tally(ErrorOf(s), ItemsOf(lines))
  {
    if lines != [] {
      var n := |lines| - 1;
      ErrorLinesTally(lines[..n], s);
      assert ItemsOf(lines)[..n] == ItemsOf(lines[..n]);
      var k := KeyOf(lines[n]);
      assert Lines(ErrorKeyOf(s))(lines[n]) == ErrorKeyOf(s)(k) == (k.service == s && ErrorLevel(k.level));
      assert ErrorOf(s)(lines[n].item) == (k.service == s && ErrorLevel(k.level));
    }
  }

  /** The digest and the impact table agree: error groups of a service add up to its reported error count. */
  lemma {:induction false} ErrorTotalsAgree(lines: seq<Line>, trigger: Option<Stamp>, profile: Profile, s: string)
    ensures SumBy(CountOf(ErrorKeyOf(s)), Sort(PatternLess(trigger.Some?, profile), Patterns(lines, trigger, |lines|)))
            == Tally(ErrorOf(s), ItemsOf(lines))
  {
    var ps := Patterns(lines, trigger, |lines|);
    VolumesAreTallies(ErrorKeyOf(s), lines, trigger, |lines|);
    assert lines[..|lines|] == lines;
    ErrorLinesTally(lines, s);
    SortPerm(PatternLess(trigger.Some?, profile), ps);
    SumPerm(CountOf(ErrorKeyOf(s)), Sort(PatternLess(trigger.Some?, profile), ps), ps);
  }

  // ------------------------------------------------------------------ the order of the digest

  function FirstSeen(): (Pattern, Pattern) -> bool {
    (a: Pattern, b: Pattern) => a.first < b.first
  }

  lemma PatternLessWeak(triggered: bool, profile: Profile, dom: set<Pattern>)
    ensures Weak(PatternLess(triggered, profile), dom)
  {
  }

  /**
   The digest lists every group once, the most surprising first (with a trigger), then the more severe,
   then the larger, then the one seen first.
   */
  lemma {:induction false} DigestOrder(lines: seq<Line>, trigger: Option<Stamp>, profile: Profile)
    ensures var ps := Patterns(lines, trigger, |lines|); var out := Sort(PatternLess(trigger.Some?, profile), ps);
      multiset(out) == multiset(ps) && Stable(PatternLess(trigger.Some?, profile), FirstSeen(), out)
  {
    var ps := Patterns(lines, trigger, |lines|);
    var less := PatternLess(trigger.Some?, profile);
    var dom := set g | g in ps;
    PatternsInOrder(lines, trigger, |lines|);
    PatternLessWeak(trigger.Some?, profile, dom);
    SortPerm(less, ps);
    SortIsStable(less, FirstSeen(), ps, dom);
  }

  /** How usual a pattern is: its base lines, its normal occurrences and one. */
  function Usual(profile: Profile, g: Pattern): nat {
    g.base + 1 + (if (g.key.service, g.key.level, g.template) in profile then profile[(g.key.service, g.key.level, g.template)] else 0)
  }

  lemma QuotientOrder(i: nat, u: nat, j: nat, v: nat)
    requires u > 0 && v > 0
    ensures i as real / u as real > j as real / v as real <==> i * v > j * u
    ensures i as real / u as real == j as real / v as real <==> i * v == j * u
  {
    var p, q := i as real / u as real, j as real / v as real;
    assert p * u as real == i as real && q * v as real == j as real;
    ProductOrder(p, q, u as real, v as real);
    assert (i * v) as real == i as real * v as real && (j * u) as real == j as real * u as real;
  }

  lemma ProductOrder(p: real, q: real, u: real, v: real)
    requires u > 0.0 && v > 0.0
    ensures p > q <==> (p * u) * v > (q * v) * u
    ensures p == q <==> (p * u) * v == (q * v) * u
  {
    var w := u * v;
    assert w > 0.0;
    assert (p * u) * v == p * w && (q * v) * u == q * w;
    assert p * w - q * w == (p - q) * w;
  }

  /**
   When one digest line goes before another, on the counters. With a trigger, incident lines against usual
   ones decide, cross-multiplied; without one, and between equals, graver levels, then larger counts, then
   the first seen.
   */
  predicate GoesBefore(triggered: bool, profile: Profile, a: Pattern, b: Pattern) {
    var wa, wb := a.incid * Usual(profile, b), b.incid * Usual(profile, a);
    && (triggered ==> wa >= wb)
    && (!triggered || wa == wb ==>
          && !Graver(b.key.level, a.key.level)
          && (AsGrave(a.key.level, b.key.level) ==> a.count > b.count || (a.count == b.count && a.first < b.first)))
  }

  lemma SurpriseByCounters(profile: Profile, a: Pattern, b: Pattern)
    ensures Surprise(profile, a) > Surprise(profile, b) <==> a.incid * Usual(profile, b) > b.incid * Usual(profile, a)
    ensures Surprise(profile, a) == Surprise(profile, b) <==> a.incid * Usual(profile, b) == b.incid * Usual(profile, a)
  {
    QuotientOrder(a.incid, Usual(profile, a), b.incid, Usual(profile, b));
  }

  lemma OrderByCounters(triggered: bool, profile: Profile, a: Pattern, b: Pattern)
    requires PatternLess(triggered, profile)(a, b) || (!PatternLess(triggered, profile)(b, a) && a.first < b.first)
    ensures GoesBefore(triggered, profile, a, b)
  {
    SurpriseByCounters(profile, a, b);
  }

  /** The digest is in the order of its counters. */
  lemma {:induction false} DigestByCounters(lines: seq<Line>, trigger: Option<Stamp>, profile: Profile, x: nat, y: nat)
    requires x < y < |Sort(PatternLess(trigger.Some?, profile), Patterns(lines, trigger, |lines|))|
    ensures var out := Sort(PatternLess(trigger.Some?, profile), Patterns(lines, trigger, |lines|));
      GoesBefore(trigger.Some?, profile, out[x], out[y])
  {
    DigestOrder(lines, trigger, profile);
    var out := Sort(PatternLess(trigger.Some?, profile), Patterns(lines, trigger, |lines|));
    OrderByCounters(trigger.Some?, profile, out[x], out[y]);
  }

  /** Two lists of the same groups in that order are the same list: the digest is determined. */
  lemma DigestIsDetermined(less: (Pattern, Pattern) -> bool, a: seq<Pattern>, b: seq<Pattern>)
    requires multiset(a) == multiset(b) && Stable(less, FirstSeen(), a) && Stable(less, FirstSeen(), b)
    requires forall x, y :: x in a && y in a && less(x, y) ==> !less(y, x)
    ensures a == b
  {
    var fine := (x: Pattern, y: Pattern) => less(x, y) || (!less(y, x) && x.first < y.first);
    forall i, j | 0 <= i < j < |a| ensures !fine(a[j], a[i]) {
      assert a[i] in a && a[j] in a;
    }
    SamePermElements(a, b);
    forall i, j | 0 <= i < j < |b| ensures !fine(b[j], b[i]) {
      assert b[i] in b && b[j] in b;
    }
    forall x, y | x in a && y in a && !fine(x, y) && !fine(y, x) ensures x == y {
      var i :| 0 <= i < |a| && a[i] == x;
      var j :| 0 <= j < |a| && a[j] == y;
      assert i < j ==> fine(x, y);
      assert j < i ==> fine(y, x);
    }
    SortedIsUnique(fine, a, b);
  }
}
