/** Signal items after parsing, and the judgements the selector and the compressors share. */
module Signals {
  import opened Wrappers

  /** A parsed timestamp: its instant, a naive time counting as UTC, and whether it carried an offset. */
  datatype Stamp = Stamp(instant: int, aware: bool)

  datatype Level = Fatal | Critical | Error | Warn | Warning | Info | Debug | Trace | NoLevel

  /** `LEVEL_ORDER.get(level, 2)`. */
  function LevelOrder(l: Level): nat {
    match l
    case Fatal | Critical | Error => 0
    case Warn | Warning => 1
    case _ => 2
  }

  predicate ErrorLevel(l: Level) {
    l.Fatal? || l.Critical? || l.Error?
  }

  predicate WarningLevel(l: Level) {
    l.Warn? || l.Warning?
  }

  /** FATAL, CRITICAL and ERROR are graver than any other level, WARN and WARNING than the rest. */
  predicate Graver(a: Level, b: Level) {
    (ErrorLevel(a) && !ErrorLevel(b)) || (WarningLevel(a) && !ErrorLevel(b) && !WarningLevel(b))
  }

  predicate AsGrave(a: Level, b: Level) {
    ErrorLevel(a) == ErrorLevel(b) && WarningLevel(a) == WarningLevel(b)
  }

  datatype LogItem = LogItem(service: string, level: Level, time: Option<Stamp>)

  datatype Pair = Pair(name: string, value: real)

  datatype MetricItem = MetricItem(service: string, pairs: seq<Pair>, time: Option<Stamp>)

  datatype TraceItem = TraceItem(service: string, operation: string, duration: Option<real>, isErr: bool,
                                 minute: string, time: Option<Stamp>)

  /** The outcome of code that compares a naive time with an aware one: Python raises `TypeError`. */
  datatype Outcome<+T> = Ok(value: T) | MixedZones

  predicate Comparable(trigger: Option<Stamp>, t: Option<Stamp>) {
    trigger.Some? && t.Some? ==> trigger.value.aware == t.value.aware
  }

  /** `trigger_dt and dt and dt < trigger_dt`. */
  predicate IsBase(trigger: Option<Stamp>, t: Option<Stamp>) {
    trigger.Some? && t.Some? && t.value.instant < trigger.value.instant
  }

  /** Both times are known and `t` is the earlier one. */
  predicate Precedes(t: Option<Stamp>, trigger: Option<Stamp>) {
    match (t, trigger)
    case (Some(a), Some(b)) => a.instant < b.instant
    case _ => false
  }

  /** `_chron`: unparsable times sort at `datetime.min` in UTC, instant 0. */
  function Chron(t: Option<Stamp>): int {
    if t.Some? then t.value.instant else 0
  }

  /** `s` comes before `t`; an unknown time stands at the start of the calendar, instant 0. */
  predicate Earlier(s: Option<Stamp>, t: Option<Stamp>) {
    match (s, t)
    case (Some(a), Some(b)) => a.instant < b.instant
    case (Some(a), None) => a.instant < 0
    case (None, Some(b)) => 0 < b.instant
    case (None, None) => false
  }

  // ------------------------------------------------------------------ statistics over reals

  function SumOf(s: seq<real>): real {
    if s == [] then 0.0 else SumOf(s[..|s| - 1]) + s[|s| - 1]
  }

  function Mean(s: seq<real>): real
    requires s != []
  {
    SumOf(s) / |s| as real
  }

  function Square(d: real): real {
    d * d
  }

  function Squares(s: seq<real>, mu: real): seq<real> {
    seq(|s|, i requires 0 <= i < |s| => Square(s[i] - mu))
  }

  /** The square of `pstdev(base) if len(base) > 1 else 0.0`. */
  function Variance(s: seq<real>): real {
    if |s| > 1 then Mean(Squares(s, Mean(s))) else 0.0
  }

  lemma {:induction false} SumNonNegative(s: seq<real>)
    requires forall i :: 0 <= i < |s| ==> s[i] >= 0.0
    ensures SumOf(s) >= 0.0
  {
    if s != [] {
      SumNonNegative(s[..|s| - 1]);
    }
  }

  lemma VarianceNonNegative(s: seq<real>)
    ensures Variance(s) >= 0.0
  {
    if |s| > 1 {
      SumNonNegative(Squares(s, Mean(s)));
    }
  }

  /** `abs(v - mu) > 3 * sigma or (sigma == 0.0 and v != mu)`, squared. */
  predicate Strays(v: real, mu: real, variance: real) {
    Square(v - mu) > 9.0 * variance || (variance == 0.0 && v != mu)
  }
}
