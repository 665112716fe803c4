/** `select_signals` as a whole: what it keeps, for every batch, cap and clustering. */
module SelectionTheorems {
  import opened Wrappers
  import opened Sorting
  import opened PyDict
  import opened Signals
  import opened RoundRobin
  import opened SignalSelector
  import opened SelectorTheorems

  // ------------------------------------------------------------------ the operation

  /** The indices `select_signals` returns. */
  ghost function Result(b: Batch, cap: int): seq<nat>
    requires WellFormed(b)
  {
    BatchPartition(b);
    Kept(BucketSpec(b), Times(b), cap)
  }

  /** `select_signals`: grading fails exactly when a metric batch over the cap mixes naive and aware times. */
  method SelectSignals(b: Batch, cap: int) returns (r: Outcome<Selection>)
    requires WellFormed(b)
    ensures r.MixedZones? <==> |Times(b)| > cap && Mixed(b)
    ensures r.Ok? ==> r.value == Selection(Result(b, cap), |Times(b)|)
  {
    BatchPartition(b);
    var times := Times(b);
    if |times| <= cap {
      return Ok(Selection(Range(|times|), |times|));
    }
    var buckets := Buckets(b);
    if buckets.MixedZones? {
      return MixedZones;
    }
    var groups := OrderGroups(buckets.value);
    var picked := Pick(groups, cap);
    picked := Sort(TimeLess(times), picked);
    r := Ok(Selection(picked, |times|));
  }

  // ------------------------------------------------------------------ permutations of 0..n-1

  lemma {:induction false} RangeCounts(n: nat, x: nat)
    ensures multiset(Range(n))[x] == if x < n then 1 else 0
  {
    if n > 0 {
      RangeCounts(n - 1, x);
      RangeSnoc(n);
    }
  }

  lemma TwiceCounts<T>(s: seq<T>, a: nat, b: nat)
    requires a < b < |s| && s[a] == s[b]
    ensures multiset(s)[s[a]] >= 2
  {
    assert s == s[..a] + [s[a]] + s[a + 1..b] + [s[b]] + s[b + 1..];
  }

  lemma PermOfRange(s: seq<nat>, n: nat)
    requires multiset(s) == multiset(Range(n))
    ensures Distinct(s) && |s| == n && forall x: nat :: x in s <==> x < n
  {
    SamePermElements(s, Range(n));
    forall a, b | 0 <= a < b < |s| ensures s[a] != s[b] {
      if s[a] == s[b] {
        TwiceCounts(s, a, b);
        RangeCounts(n, s[a]);
      }
    }
    forall x: nat ensures x in s <==> x < n {
      RangeCounts(n, x);
      assert x in s <==> x in multiset(s);
    }
  }

  lemma {:induction false} InConcat<T>(groups: seq<seq<T>>, p: Place)
    requires Valid(groups, p)
    ensures groups[p.1][p.0] in Concat(groups)
  {
    if p.1 > 0 {
      InConcat(groups[1..], (p.0, p.1 - 1));
    } else {
      assert Concat(groups)[p.0] == groups[0][p.0];
    }
  }

  /** In groups without repetition different places hold different items. */
  lemma {:induction false} DistinctPlaces<T>(groups: seq<seq<T>>, p: Place, q: Place)
    requires Distinct(Concat(groups)) && Valid(groups, p) && Valid(groups, q) && p != q && p.1 <= q.1
    ensures groups[p.1][p.0] != groups[q.1][q.0]
  {
    var c := Concat(groups);
    var rest := Concat(groups[1..]);
    assert c == groups[0] + rest;
    forall k | 0 <= k < |rest| ensures rest[k] == c[|groups[0]| + k] {}
    if p.1 > 0 {
      DistinctPlaces(groups[1..], (p.0, p.1 - 1), (q.0, q.1 - 1));
    } else {
      assert c[p.0] == groups[0][p.0];
      if q.1 > 0 {
        InConcat(groups[1..], (q.0, q.1 - 1));
        var k :| 0 <= k < |rest| && rest[k] == groups[q.1][q.0];
        assert c[|groups[0]| + k] == rest[k];
      } else {
        assert c[q.0] == groups[0][q.0];
      }
    }
  }

  // ------------------------------------------------------------------ what the picker took

  /** The groups of a partition hold every index once. */
  lemma GroupsOfPartition(buckets: seq<seq<Entry>>, n: nat)
    requires NoneEmpty(buckets) && Partition(buckets, n)
    ensures var c := Concat(OrderedSpec(buckets));
      Distinct(c) && |c| == n && forall x: nat :: x in c <==> x < n
  {
    GroupsConserve(buckets);
    PermOfRange(Concat(OrderedSpec(buckets)), n);
  }

  /** An item of group `g` at depth `d` was picked exactly when its place was. */
  lemma PickedPlaces(buckets: seq<seq<Entry>>, n: nat, cap: int, p: Place)
    requires NoneEmpty(buckets) && Partition(buckets, n) && Valid(OrderedSpec(buckets), p)
    ensures OrderedSpec(buckets)[p.1][p.0] in Picked(buckets, cap) <==> p in Picks(OrderedSpec(buckets), cap)
  {
    var groups := OrderedSpec(buckets);
    var ps := Picks(groups, cap);
    OrderIsTheEnumeration(groups, []);
    GroupsOfPartition(buckets, n);
    var x := groups[p.1][p.0];
    if p in ps {
      var k :| 0 <= k < |ps| && ps[k] == p;
      assert Picked(buckets, cap)[k] == x;
    }
    if x in Picked(buckets, cap) {
      var k :| 0 <= k < |ps| && Picked(buckets, cap)[k] == x;
      if ps[k] != p {
        if p.1 <= ps[k].1 {
          DistinctPlaces(groups, p, ps[k]);
        } else {
          DistinctPlaces(groups, ps[k], p);
        }
      }
    }
  }

  lemma PickedFacts(buckets: seq<seq<Entry>>, n: nat, cap: int)
    requires NoneEmpty(buckets) && Partition(buckets, n)
    ensures var s := Picked(buckets, cap);
      Distinct(s) && |s| == Cut(cap, n) && forall x :: x in s ==> x < n
  {
    var groups := OrderedSpec(buckets);
    var ps := Picks(groups, cap);
    OrderIsTheEnumeration(groups, []);
    GroupsOfPartition(buckets, n);
    ConcatLength(groups);
    OrderLength(groups);
    var s := Picked(buckets, cap);
    forall a, b | 0 <= a < b < |s| ensures s[a] != s[b] {
      assert Before(ps[a], ps[b]);
      if ps[a].1 <= ps[b].1 {
        DistinctPlaces(groups, ps[a], ps[b]);
      } else {
        DistinctPlaces(groups, ps[b], ps[a]);
      }
    }
    forall x | x in s ensures x < n {
      var k :| 0 <= k < |s| && s[k] == x;
      InConcat(groups, ps[k]);
    }
  }

  lemma DistinctPerm<T>(a: seq<T>, b: seq<T>)
    requires multiset(a) == multiset(b) && Distinct(a)
    ensures Distinct(b)
  {
    forall i, j | 0 <= i < j < |b| ensures b[i] != b[j] {
      if b[i] == b[j] {
        TwiceCounts(b, i, j);
        DistinctCounts(a, b[i]);
      }
    }
  }

  lemma {:induction false} DistinctCounts<T>(s: seq<T>, x: T)
    requires Distinct(s)
    ensures multiset(s)[x] <= 1
  {
    if s != [] {
      assert s == [s[0]] + s[1..];
      DistinctCounts(s[1..], x);
      if s[0] == x {
        assert x !in s[1..];
      }
    }
  }

  // ------------------------------------------------------------------ the selection

  /** Over the cap exactly `cap` different input items remain; up to it, all of them. */
  lemma KeptIsASubset(b: Batch, cap: int)
    requires WellFormed(b) && Faithful(b)
    ensures Distinct(Result(b, cap)) && |Result(b, cap)| == Cut(cap, |Times(b)|)
    ensures forall x :: x in Result(b, cap) ==> x < |Times(b)|
  {
    BatchPartition(b);
    var times := Times(b);
    if |times| > cap {
      var picked := Picked(BucketSpec(b), cap);
      PickedFacts(BucketSpec(b), |times|, cap);
      SortPerm(TimeLess(times), picked);
      DistinctPerm(picked, Sort(TimeLess(times), picked));
      SamePermElements(picked, Sort(TimeLess(times), picked));
    }
  }

  lemma {:induction false} PicksAtMost<T>(groups: seq<seq<T>>, cap: int)
    ensures |Picks(groups, cap)| <= Cut(cap, |Order(groups, 0)|) && (cap <= 0 ==> Picks(groups, cap) == [])
  {
  }

  /** `truncated` holds exactly when a nonempty batch is over the cap, name clashes or not. */
  lemma TruncatedMeansOverCap(b: Batch, cap: int)
    requires WellFormed(b)
    ensures Selection(Result(b, cap), |Times(b)|).Truncated() <==> |Times(b)| > cap && |Times(b)| > 0
  {
    BatchPartition(b);
    var times := Times(b);
    if |times| > cap {
      PicksAtMost(OrderedSpec(BucketSpec(b)), cap);
      SortPerm(TimeLess(times), Picked(BucketSpec(b), cap));
    }
  }

  /** Nondecreasing keys, ties in input order. */
  ghost predicate Chronological(times: seq<int>, kept: seq<nat>) {
    forall a, b :: 0 <= a < b < |kept| && kept[a] < |times| && kept[b] < |times| ==>
      times[kept[a]] < times[kept[b]] || (times[kept[a]] == times[kept[b]] && kept[a] <= kept[b])
  }

  lemma TimeLessWeak(times: seq<int>, dom: set<nat>)
    ensures Weak(TimeLess(times), dom)
  {
  }

  lemma ChronologicalKeys(b: Batch, cap: int)
    requires WellFormed(b)
    ensures Chronological(Times(b), Result(b, cap)) <==>
            |Times(b)| > cap || forall i, j :: 0 <= i < j < |Times(b)| ==> Times(b)[i] <= Times(b)[j]
  {
    BatchPartition(b);
    var times := Times(b);
    var kept := Kept(BucketSpec(b), times, cap);
    if |times| > cap {
      var picked := Picked(BucketSpec(b), cap);
      var dom := set x | x in picked;
      TimeLessWeak(times, dom);
      WithinItself(picked);
      SortAscends(TimeLess(times), picked, dom);
    } else {
      if Chronological(times, kept) {
        forall i, j | 0 <= i < j < |times| ensures times[i] <= times[j] {
          assert kept[i] == i && kept[j] == j;
        }
      }
    }
  }

  /** The time fields of a batch. */
  function Stamps(b: Batch): (r: seq<Option<Stamp>>)
    ensures |r| == |Times(b)|
  {
    match b
    case Logs(items, _) => seq(|items|, i requires 0 <= i < |items| => items[i].time)
    case Metrics(items, _) => seq(|items|, i requires 0 <= i < |items| => items[i].time)
    case Traces(items) => seq(|items|, i requires 0 <= i < |items| => items[i].time)
  }

  /** No later time before an earlier one, equal times in input order. */
  ghost predicate InTimeOrder(stamps: seq<Option<Stamp>>, kept: seq<nat>) {
    forall a, b :: 0 <= a < b < |kept| && kept[a] < |stamps| && kept[b] < |stamps| ==>
      Earlier(stamps[kept[a]], stamps[kept[b]]) || (!Earlier(stamps[kept[b]], stamps[kept[a]]) && kept[a] <= kept[b])
  }

  lemma KeysMeanTimes(b: Batch)
    ensures forall i, j :: 0 <= i < |Times(b)| && 0 <= j < |Times(b)| ==>
              (Times(b)[i] < Times(b)[j] <==> Earlier(Stamps(b)[i], Stamps(b)[j]))
  {
    forall i, j | 0 <= i < |Times(b)| && 0 <= j < |Times(b)|
      ensures Times(b)[i] < Times(b)[j] <==> Earlier(Stamps(b)[i], Stamps(b)[j])
    {
      assert Times(b)[i] == Chron(Stamps(b)[i]) && Times(b)[j] == Chron(Stamps(b)[j]);
    }
  }

  /**
   The documentation promises time order for every result. It holds exactly when the batch is over
   the cap or arrived in order: up to the cap the input passes unsorted.
   */
  lemma ChronologicalExactly(b: Batch, cap: int)
    requires WellFormed(b)
    ensures InTimeOrder(Stamps(b), Result(b, cap)) <==>
            |Stamps(b)| > cap || forall i, j :: 0 <= i < j < |Stamps(b)| ==> !Earlier(Stamps(b)[j], Stamps(b)[i])
  {
    ChronologicalKeys(b, cap);
    KeysMeanTimes(b);
    SameOrders(Times(b), Stamps(b), Result(b, cap));
    forall i, j | 0 <= i < j < |Times(b)| ensures Times(b)[i] <= Times(b)[j] <==> !Earlier(Stamps(b)[j], Stamps(b)[i]) {}
  }

  lemma SameOrders(times: seq<int>, stamps: seq<Option<Stamp>>, kept: seq<nat>)
    requires |times| == |stamps|
    requires forall i, j :: 0 <= i < |times| && 0 <= j < |times| ==> (times[i] < times[j] <==> Earlier(stamps[i], stamps[j]))
    ensures Chronological(times, kept) <==> InTimeOrder(stamps, kept)
  {
  }

  /** Two spans that arrive in the wrong order leave in the wrong order when the cap is two or more. */
  lemma UnsortedPasses(early: TraceItem, late: TraceItem, cap: int)
    requires Earlier(early.time, late.time) && cap >= 2
    ensures var b := Traces([late, early]); Result(b, cap) == [0, 1] && !InTimeOrder(Stamps(b), Result(b, cap))
  {
    var b := Traces([late, early]);
    BatchPartition(b);
    assert Stamps(b)[0] == late.time && Stamps(b)[1] == early.time;
    assert Range(2) == [0, 1];
    assert [0, 1][0] == 0 && [0, 1][1] == 1;
  }

  lemma InPicks(groups: seq<seq<nat>>, cap: int, more: int, p: Place)
    requires cap <= more && p in Picks(groups, cap)
    ensures p in Picks(groups, more)
  {
    PicksGrow(groups, cap, more);
    var k :| 0 <= k < |Picks(groups, cap)| && Picks(groups, cap)[k] == p;
    assert Picks(groups, more)[k] == p;
  }

  lemma KeptMembers(buckets: seq<seq<Entry>>, times: seq<int>, cap: int)
    requires NoneEmpty(buckets) && |times| > cap
    ensures forall x :: x in Kept(buckets, times, cap) <==> x in Picked(buckets, cap)
  {
    SortPerm(TimeLess(times), Picked(buckets, cap));
    SamePermElements(Sort(TimeLess(times), Picked(buckets, cap)), Picked(buckets, cap));
  }

  /** Raising the cap never drops an item. */
  lemma KeptGrows(b: Batch, cap: int, more: int, x: nat)
    requires WellFormed(b) && Faithful(b) && cap <= more
    ensures x in Result(b, cap) ==> x in Result(b, more)
  {
    BatchPartition(b);
    var buckets := BucketSpec(b);
    var times := Times(b);
    var groups := OrderedSpec(buckets);
    if x in Kept(buckets, times, cap) {
      KeptIsASubset(b, cap);
      if |times| <= more {
        assert Range(|times|)[x] == x;
      } else {
        KeptMembers(buckets, times, cap);
        KeptMembers(buckets, times, more);
        OrderIsTheEnumeration(groups, []);
        var k :| 0 <= k < |Picked(buckets, cap)| && Picked(buckets, cap)[k] == x;
        var p := Picks(groups, cap)[k];
        InPicks(groups, cap, more, p);
        PickedPlaces(buckets, |times|, more, p);
      }
    }
  }
}
