/** `_to_spring_ts`: the canonical UTC text of an instant (RFC 3339, section 5.6) and its laws. */
module SpringTime {
  import opened Wrappers
  import opened Signals
  import opened Calendar

  /** A reading with its offset from UTC in microseconds; a naive reading has none. */
  datatype Parsed = Parsed(fields: Fields, offset: Option<int>)

  predicate ValidParsed(p: Parsed) {
    Valid(p.fields) && (p.offset.Some? ==> -DAY < p.offset.value < DAY)
  }

  /** The instant a reading denotes, a naive one counting as UTC. */
  function UtcInstant(p: Parsed): int
    requires ValidParsed(p)
  {
    Instant(p.fields) - (if p.offset.Some? then p.offset.value else 0)
  }

  // ------------------------------------------------------------------ printing

  function Pow10(w: nat): nat {
    if w == 0 then 1 else 10 * Pow10(w - 1)
  }

  function Digit(d: int): char
    requires 0 <= d < 10
  {
    ('0' as int + d) as char
  }

  predicate IsDigit(c: char) {
    '0' <= c <= '9'
  }

  function Digits(n: nat, w: nat): (s: string)
    ensures |s| == w && forall i :: 0 <= i < w ==> IsDigit(s[i])
  {
    if w == 0 then "" else Digits(n / 10, w - 1) + [Digit(n % 10)]
  }

  function Number(s: string): int {
    if s == "" then 0 else 10 * Number(s[..|s| - 1]) + s[|s| - 1] as int - '0' as int
  }

  lemma {:induction false} NumberOfDigits(n: nat, w: nat)
    requires n < Pow10(w)
    ensures Number(Digits(n, w)) == n
  {
    if w > 0 {
      NumberOfDigits(n / 10, w - 1);
      assert Digits(n, w)[..w - 1] == Digits(n / 10, w - 1);
    }
  }

  function Triple(a: nat, w: nat, sep: char, b: nat, c: nat): string {
    Digits(a, w) + ([sep] + (Digits(b, 2) + ([sep] + Digits(c, 2))))
  }

  function Fraction(micro: nat): string {
    if micro == 0 then "" else "." + Digits(micro, 6)
  }

  /** `isoformat` without the offset: seconds, or microseconds when there are any. */
  function Reading(f: Fields): string
    requires Valid(f)
  {
    Triple(f.year, 4, '-', f.month, f.day) + ("T" + (Triple(f.hour, 2, ':', f.minute, f.second) + Fraction(f.micro)))
  }

  const UTC_OFFSET := "+00:00"

  /** `text.replace(old, new)`. */
  function Replace(text: string, old_: string, new_: string): string
    requires old_ != ""
  {
    if |text| < |old_| then text
    else if old_ <= text then new_ + Replace(text[|old_|..], old_, new_)
    else [text[0]] + Replace(text[1..], old_, new_)
  }

  /** The text sent for an instant in range. */
  function Print(i: int): string
    requires 0 <= i < End()
  {
    InstantOfFields(i);
    Replace(Reading(FieldsOf(i)) + UTC_OFFSET, UTC_OFFSET, "Z")
  }

  /** Only the offset at the end is replaced. */
  lemma {:induction false} ReplaceSuffix(body: string)
    requires forall k :: 0 <= k < |body| ==> body[k] != '+'
    ensures Replace(body + UTC_OFFSET, UTC_OFFSET, "Z") == body + "Z"
  {
    var text := body + UTC_OFFSET;
    if body == "" {
      assert text == UTC_OFFSET && text[|UTC_OFFSET|..] == "";
      assert Replace(text, UTC_OFFSET, "Z") == "Z" + Replace("", UTC_OFFSET, "Z");
    } else {
      assert text[0] == body[0] && UTC_OFFSET[0] == '+';
      ReplaceSuffix(body[1..]);
      assert text[1..] == body[1..] + UTC_OFFSET;
      assert body == [body[0]] + body[1..];
    }
  }

  lemma PrintIsReading(i: int)
    requires 0 <= i < End()
    ensures Valid(FieldsOf(i)) && Print(i) == Reading(FieldsOf(i)) + "Z"
  {
    InstantOfFields(i);
    ReplaceSuffix(Reading(FieldsOf(i)));
  }

  // ------------------------------------------------------------------ reading back

  datatype Read = Read(n: int, rest: string)

  predicate AllDigits(s: string) {
    forall i :: 0 <= i < |s| ==> IsDigit(s[i])
  }

  function TakeDigits(s: string, w: nat): Option<Read> {
    if |s| < w || !AllDigits(s[..w]) then None else Some(Read(Number(s[..w]), s[w..]))
  }

  /** A separator, then two digits. */
  function TakePart(s: string, sep: char): Option<Read> {
    if s == "" || s[0] != sep then None else TakeDigits(s[1..], 2)
  }

  datatype Three = Three(a: int, b: int, c: int, rest: string)

  function TakeTriple(s: string, w: nat, sep: char): Option<Three> {
    var a := TakeDigits(s, w);
    if a.None? then None
    else
      var b := TakePart(a.value.rest, sep);
      if b.None? then None
      else
        var c := TakePart(b.value.rest, sep);
        if c.None? then None else Some(Three(a.value.n, b.value.n, c.value.n, c.value.rest))
  }

  function TakeFraction(s: string): Option<Read> {
    if s == "" || s[0] != '.' then Some(Read(0, s)) else TakeDigits(s[1..], 6)
  }

  /** The canonical form: date, `T`, time, an optional six-digit fraction, `Z`. */
  function ParseCanonical(s: string): Option<Fields> {
    var date := TakeTriple(s, 4, '-');
    if date.None? || date.value.rest == "" || date.value.rest[0] != 'T' then None
    else
      var time := TakeTriple(date.value.rest[1..], 2, ':');
      if time.None? then None
      else
        var micro := TakeFraction(time.value.rest);
        if micro.None? || micro.value.rest != "Z" then None
        else
          var f := Fields(date.value.a, date.value.b, date.value.c, time.value.a, time.value.b, time.value.c, micro.value.n);
          if Valid(f) then Some(f) else None
  }

  lemma {:induction false} TakesDigits(n: nat, w: nat, rest: string)
    requires n < Pow10(w)
    ensures TakeDigits(Digits(n, w) + rest, w) == Some(Read(n, rest))
  {
    var s := Digits(n, w) + rest;
    assert s[..w] == Digits(n, w) && s[w..] == rest;
    NumberOfDigits(n, w);
  }

  lemma {:induction false} TakesPart(sep: char, n: nat, rest: string)
    requires n < 100
    ensures TakePart([sep] + (Digits(n, 2) + rest), sep) == Some(Read(n, rest))
  {
    assert ([sep] + (Digits(n, 2) + rest))[1..] == Digits(n, 2) + rest;
    assert Pow10(2) == 100;
    TakesDigits(n, 2, rest);
  }

  lemma {:induction false} TakesTriple(a: nat, w: nat, sep: char, b: nat, c: nat, rest: string)
    requires a < Pow10(w) && b < 100 && c < 100
    ensures TakeTriple(Triple(a, w, sep, b, c) + rest, w, sep) == Some(Three(a, b, c, rest))
  {
    var third := [sep] + (Digits(c, 2) + rest);
    var second := [sep] + (Digits(b, 2) + third);
    assert Triple(a, w, sep, b, c) + rest == Digits(a, w) + second;
    TakesDigits(a, w, second);
    TakesPart(sep, b, third);
    TakesPart(sep, c, rest);
  }

  lemma TakesFraction(micro: nat)
    requires micro < 1_000_000
    ensures TakeFraction(Fraction(micro) + "Z") == Some(Read(micro, "Z"))
  {
    if micro == 0 {
      assert "" + "Z" == "Z";
    } else {
      assert (Fraction(micro) + "Z")[1..] == Digits(micro, 6) + "Z";
      assert Pow10(3) == 1000 && Pow10(6) == 1_000_000;
      TakesDigits(micro, 6, "Z");
    }
  }

  /** Printing a valid reading and parsing it again is the identity. */
  lemma ParseOfReading(f: Fields)
    requires Valid(f)
    ensures ParseCanonical(Reading(f) + "Z") == Some(f)
  {
    var tail := Fraction(f.micro) + "Z";
    var time := Triple(f.hour, 2, ':', f.minute, f.second) + tail;
    assert Reading(f) + "Z" == Triple(f.year, 4, '-', f.month, f.day) + ("T" + time);
    assert ("T" + time)[1..] == time;
    assert Pow10(2) == 100 && Pow10(4) == 10_000;
    TakesTriple(f.year, 4, '-', f.month, f.day, "T" + time);
    TakesTriple(f.hour, 2, ':', f.minute, f.second, tail);
    TakesFraction(f.micro);
  }

  /** Printing an instant and parsing the text again yields its reading. */
  lemma ParseOfPrint(i: int)
    requires 0 <= i < End()
    ensures ParseCanonical(Print(i)) == Some(FieldsOf(i))
  {
    PrintIsReading(i);
    ParseOfReading(FieldsOf(i));
  }

  // ------------------------------------------------------------------ the conversion

  /** What is asked of the library parser: valid readings, and canonical texts read as UTC. */
  ghost predicate Honest(parse: string -> Option<Parsed>) {
    && (forall s :: parse(s).Some? ==> ValidParsed(parse(s).value))
    && (forall s :: ParseCanonical(s).Some? ==> parse(s) == Some(Parsed(ParseCanonical(s).value, Some(0))))
  }

  /** A parser of exactly the canonical texts. */
  function Strict(s: string): Option<Parsed> {
    var f := ParseCanonical(s);
    if f.None? then None else Some(Parsed(f.value, Some(0)))
  }

  type Parser = f: string -> Option<Parsed> | Honest(f) ghost witness Strict

  /** `ValueError` for an unparsable text, `OverflowError` for an instant outside years 1 to 9999. */
  datatype Sent = Text(text: string) | ValueError | OverflowError

  function ToSpringTs(parse: Parser, value: string): Sent
  {
    var p := parse(value);
    if p.None? then ValueError
    else
      var i := UtcInstant(p.value);
      if 0 <= i < End() then Text(Print(i)) else OverflowError
  }

  /** The offset of a reading, none counting as zero. */
  function Ahead(p: Parsed): int {
    match p.offset
    case Some(o) => o
    case None => 0
  }

  /** It fails exactly for unparsable texts and for aware readings whose UTC instant leaves years 1 to 9999. */
  lemma FailsExactly(parse: Parser, value: string)
    ensures ToSpringTs(parse, value).ValueError? <==> parse(value).None?
    ensures ToSpringTs(parse, value).OverflowError? <==>
            parse(value).Some? && parse(value).value.offset.Some?
            && !(0 <= Instant(parse(value).value.fields) - parse(value).value.offset.value < 3_652_059 * 86_400_000_000)
  {
    LastDay();
    if parse(value).Some? {
      FieldsOfInstant(parse(value).value.fields);
    }
  }

  /** The reading of the text sent. */
  lemma SentReading(parse: Parser, value: string)
    requires ToSpringTs(parse, value).Text?
    ensures var i := UtcInstant(parse(value).value);
      0 <= i < End() && Valid(FieldsOf(i)) && Instant(FieldsOf(i)) == i
      && parse(ToSpringTs(parse, value).text) == Some(Parsed(FieldsOf(i), Some(0)))
  {
    var i := UtcInstant(parse(value).value);
    ParseOfPrint(i);
    InstantOfFields(i);
  }

  /**
   The text sent denotes the same instant, in UTC: it is behind an aware reading by the offset, and shows
   the very fields of a naive one.
   */
  lemma KeepsInstant(parse: Parser, value: string)
    requires ToSpringTs(parse, value).Text?
    ensures var p := parse(value).value; var sent := parse(ToSpringTs(parse, value).text);
      && sent.Some? && sent.value.offset == Some(0)
      && (p.offset.Some? ==> Instant(sent.value.fields) + p.offset.value == Instant(p.fields))
      && (p.offset.None? ==> sent.value.fields == p.fields)
  {
    SentReading(parse, value);
    FieldsOfInstant(parse(value).value.fields);
  }

  lemma SentText(parse: Parser, value: string)
    requires ToSpringTs(parse, value).Text?
    ensures var i := UtcInstant(parse(value).value); 0 <= i < End() && ToSpringTs(parse, value).text == Print(i)
  {
  }

  lemma SentAtInstant(parse: Parser, value: string, i: int)
    requires parse(value).Some? && UtcInstant(parse(value).value) == i && 0 <= i < End()
    ensures ToSpringTs(parse, value) == Text(Print(i))
  {
  }

  lemma ReadingInstant(f: Fields)
    requires Valid(f)
    ensures UtcInstant(Parsed(f, Some(0))) == Instant(f)
  {
  }

  /** Converting a converted text changes nothing. */
  lemma Idempotent(parse: Parser, value: string)
    requires ToSpringTs(parse, value).Text?
    ensures ToSpringTs(parse, ToSpringTs(parse, value).text) == ToSpringTs(parse, value)
  {
    var i := UtcInstant(parse(value).value);
    SentReading(parse, value);
    SentText(parse, value);
    ReadingInstant(FieldsOf(i));
    SentAtInstant(parse, ToSpringTs(parse, value).text, i);
  }

  lemma PrintSeparates(i: int, j: int)
    requires 0 <= i < End() && 0 <= j < End() && Print(i) == Print(j)
    ensures i == j
  {
    ParseOfPrint(i);
    ParseOfPrint(j);
    InstantOfFields(i);
    InstantOfFields(j);
  }

  lemma SameTextByInstant(parse: Parser, a: string, b: string)
    requires ToSpringTs(parse, a).Text? && ToSpringTs(parse, b).Text?
    ensures ToSpringTs(parse, a).text == ToSpringTs(parse, b).text <==> UtcInstant(parse(a).value) == UtcInstant(parse(b).value)
  {
    var i, j := UtcInstant(parse(a).value), UtcInstant(parse(b).value);
    SentText(parse, a);
    SentText(parse, b);
    if Print(i) == Print(j) {
      PrintSeparates(i, j);
    }
  }

  lemma BehindByOffset(p: Parsed)
    requires ValidParsed(p)
    ensures UtcInstant(p) == Instant(p.fields) - Ahead(p)
  {
  }

  /** Two times are sent as the same text exactly when they are the same instant. */
  lemma SameTextSameInstant(parse: Parser, a: string, b: string)
    requires ToSpringTs(parse, a).Text? && ToSpringTs(parse, b).Text?
    ensures ToSpringTs(parse, a).text == ToSpringTs(parse, b).text <==>
            Instant(parse(a).value.fields) - Ahead(parse(a).value) == Instant(parse(b).value.fields) - Ahead(parse(b).value)
  {
    SameTextByInstant(parse, a, b);
    BehindByOffset(parse(a).value);
    BehindByOffset(parse(b).value);
  }

  /** A reading at the instant of the UTC fields `f` is sent as the text of `f`. */
  lemma SentAs(parse: Parser, value: string, f: Fields)
    requires parse(value).Some? && Valid(f) && UtcInstant(parse(value).value) == Instant(f)
    ensures ToSpringTs(parse, value) == Text(Reading(f) + "Z")
  {
    FieldsOfInstant(f);
    PrintIsReading(Instant(f));
  }

  /** Nine in the morning in Seoul is sent as midnight in UTC. */
  lemma SeoulMorning(parse: Parser, value: string)
    requires parse(value) == Some(Parsed(Fields(2024, 5, 1, 9, 0, 0, 0), Some(32_400_000_000)))
    ensures ToSpringTs(parse, value) == Text("2024-05-01T00:00:00Z")
  {
    SameDay();
    SentAs(parse, value, Fields(2024, 5, 1, 0, 0, 0, 0));
    MidnightText();
  }

  lemma SameDay()
    ensures Valid(Fields(2024, 5, 1, 0, 0, 0, 0)) && Valid(Fields(2024, 5, 1, 9, 0, 0, 0))
    ensures UtcInstant(Parsed(Fields(2024, 5, 1, 9, 0, 0, 0), Some(32_400_000_000))) == Instant(Fields(2024, 5, 1, 0, 0, 0, 0))
  {
    assert DayNumber(Fields(2024, 5, 1, 9, 0, 0, 0)) == DayNumber(Fields(2024, 5, 1, 0, 0, 0, 0));
  }

  lemma MidnightText()
    ensures Valid(Fields(2024, 5, 1, 0, 0, 0, 0))
    ensures Reading(Fields(2024, 5, 1, 0, 0, 0, 0)) + "Z" == "2024-05-01T00:00:00Z"
  {
    FewDigits();
    assert Triple(2024, 4, '-', 5, 1) == "2024-05-01";
    assert Triple(0, 2, ':', 0, 0) == "00:00:00";
  }

  lemma FewDigits()
    ensures Digits(2024, 4) == "2024" && Digits(5, 2) == "05" && Digits(1, 2) == "01" && Digits(0, 2) == "00"
  {
    assert Digits(20, 2) == "20";
  }

  // ------------------------------------------------------------------ agreement with the selector

  /** The selector's view of a text. */
  function StampOf(parse: Parser, value: string): Option<Stamp>
  {
    if parse(value).None? then None else Some(Stamp(UtcInstant(parse(value).value), parse(value).value.offset.Some?))
  }

  /** Conversion does not move a time in the selector's order. */
  lemma ChronKept(parse: Parser, value: string)
    requires ToSpringTs(parse, value).Text?
    ensures var sent := StampOf(parse, ToSpringTs(parse, value).text);
      sent.Some? && StampOf(parse, value).Some? && sent.value.instant == StampOf(parse, value).value.instant
    ensures Chron(StampOf(parse, ToSpringTs(parse, value).text)) == Chron(StampOf(parse, value))
  {
    SentReading(parse, value);
  }

  /**
   Two texts can be compared as they arrive exactly when both carry an offset or neither does; once
   converted, any two can.
   */
  lemma ConvertedCompare(parse: Parser, a: string, b: string)
    requires ToSpringTs(parse, a).Text? && ToSpringTs(parse, b).Text?
    ensures Comparable(StampOf(parse, a), StampOf(parse, b)) <==> parse(a).value.offset.Some? == parse(b).value.offset.Some?
    ensures Comparable(StampOf(parse, ToSpringTs(parse, a).text), StampOf(parse, ToSpringTs(parse, b).text))
  {
    SentReading(parse, a);
    SentReading(parse, b);
  }

  // ------------------------------------------------------------------ a whole payload

  predicate Sendable(parse: Parser, times: seq<string>) {
    forall i :: 0 <= i < |times| ==> ToSpringTs(parse, times[i]).Text?
  }

  function Converted(parse: Parser, times: seq<string>): (r: seq<string>)
    requires Sendable(parse, times)
    ensures |r| == |times| && forall i :: 0 <= i < |r| ==> r[i] == ToSpringTs(parse, times[i]).text
  {
    seq(|times|, i requires 0 <= i < |times| => ToSpringTs(parse, times[i]).text)
  }

  /** The place of the first text that raises. */
  function FirstRaise(parse: Parser, times: seq<string>): (n: nat)
    ensures n <= |times| && (n < |times| ==> !ToSpringTs(parse, times[n]).Text?)
    ensures forall i :: 0 <= i < n ==> ToSpringTs(parse, times[i]).Text?
  {
    if times == [] || !ToSpringTs(parse, times[0]).Text? then 0
    else
      assert forall i :: 0 < i < |times| ==> times[i] == times[1..][i - 1];
      1 + FirstRaise(parse, times[1..])
  }

  /** A list after the loop over it: converted up to the first text that raises, the rest as it was. */
  function Partly(parse: Parser, times: seq<string>): (r: seq<string>)
    ensures |r| == |times|
  {
    var n := FirstRaise(parse, times);
    seq(|times|, i requires 0 <= i < |times| => if i < n then ToSpringTs(parse, times[i]).text else times[i])
  }

  /** When nothing raises, the whole list is converted. */
  lemma AllPartly(parse: Parser, times: seq<string>)
    requires Sendable(parse, times)
    ensures Partly(parse, times) == Converted(parse, times)
  {
  }

  /** Convert a list of time fields in place, up to the first one that raises. */
  method ConvertAll(parse: Parser, times: seq<string>) returns (r: seq<string>, ok: bool)
    ensures ok <==> Sendable(parse, times)
    ensures r == Partly(parse, times)
  {
    r := times;
    ghost var n := FirstRaise(parse, times);
    ghost var goal := Partly(parse, times);
    for i := 0 to |times|
      invariant |r| == |times| && i <= n
      invariant forall j :: 0 <= j < i ==> r[j] == goal[j]
      invariant forall j :: i <= j < |times| ==> r[j] == times[j]
    {
      var sent := ToSpringTs(parse, r[i]);
      if !sent.Text? {
        assert i == n && r == goal;
        return r, false;
      }
      r := r[i := sent.text];
    }
    assert r == goal;
    ok := true;
  }

  /** A list the loops reach only if nothing raised before it. */
  function IfReached(parse: Parser, reached: bool, times: seq<string>): seq<string> {
    if reached then Partly(parse, times) else times
  }

  /** The time fields of a payload, in the order `_normalize_timestamps` visits them. */
  class Payload {
    var window: seq<string>
    var trigger: seq<string>
    var logs: seq<string>
    var metrics: seq<string>
    var traces: seq<string>
    var intervals: seq<string>

    /** The first `n` lists of fields hold nothing that raises. */
    ghost predicate SendableTo(parse: Parser, n: nat)
      reads this
    {
      && (n > 0 ==> Sendable(parse, window)) && (n > 1 ==> Sendable(parse, trigger)) && (n > 2 ==> Sendable(parse, logs))
      && (n > 3 ==> Sendable(parse, metrics)) && (n > 4 ==> Sendable(parse, traces)) && (n > 5 ==> Sendable(parse, intervals))
    }

    /**
     `_normalize_timestamps`: all fields, or an exception at the first one that raises; then the fields
     before it are converted and the others are as they were.
     */
    method NormalizeTimestamps(parse: Parser) returns (ok: bool)
      modifies this
      ensures ok <==> old(SendableTo(parse, 6))
      ensures ok ==> window == Converted(parse, old(window)) && trigger == Converted(parse, old(trigger))
      ensures ok ==> logs == Converted(parse, old(logs)) && metrics == Converted(parse, old(metrics))
      ensures ok ==> traces == Converted(parse, old(traces)) && intervals == Converted(parse, old(intervals))
      ensures window == Partly(parse, old(window))
      ensures trigger == IfReached(parse, old(SendableTo(parse, 1)), old(trigger))
      ensures logs == IfReached(parse, old(SendableTo(parse, 2)), old(logs))
      ensures metrics == IfReached(parse, old(SendableTo(parse, 3)), old(metrics))
      ensures traces == IfReached(parse, old(SendableTo(parse, 4)), old(traces))
      ensures intervals == IfReached(parse, old(SendableTo(parse, 5)), old(intervals))
    {
      window, ok := ConvertAll(parse, window);
      if !ok { return; }
      trigger, ok := ConvertAll(parse, trigger);
      if !ok { return; }
      logs, ok := ConvertAll(parse, logs);
      if !ok { return; }
      metrics, ok := ConvertAll(parse, metrics);
      if !ok { return; }
      traces, ok := ConvertAll(parse, traces);
      if !ok { return; }
      intervals, ok := ConvertAll(parse, intervals);
      if !ok { return; }
      AllPartly(parse, old(window));
      AllPartly(parse, old(trigger));
      AllPartly(parse, old(logs));
      AllPartly(parse, old(metrics));
      AllPartly(parse, old(traces));
      AllPartly(parse, old(intervals));
    }
  }

  /** Normalising a second time raises at the same place, and changes nothing, whether or not the first time raised. */
  lemma {:induction false} PartlyTwice(parse: Parser, times: seq<string>)
    ensures FirstRaise(parse, Partly(parse, times)) == FirstRaise(parse, times)
    ensures Partly(parse, Partly(parse, times)) == Partly(parse, times)
  {
    var n := FirstRaise(parse, times);
    var once := Partly(parse, times);
    forall i | 0 <= i < n ensures ToSpringTs(parse, once[i]) == ToSpringTs(parse, times[i]) {
      Idempotent(parse, times[i]);
    }
    assert n < |times| ==> once[n] == times[n];
  }

  /** The selector's order of a payload array survives normalisation, both ways. */
  lemma ConvertedKeepsOrder(parse: Parser, times: seq<string>, i: nat, j: nat)
    requires Sendable(parse, times) && i < |times| && j < |times|
    ensures Earlier(StampOf(parse, times[i]), StampOf(parse, times[j])) <==>
            Earlier(StampOf(parse, Converted(parse, times)[i]), StampOf(parse, Converted(parse, times)[j]))
  {
    ChronKept(parse, times[i]);
    ChronKept(parse, times[j]);
  }
}
