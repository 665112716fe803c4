/** Which items a selection favours, bucket by bucket. */
module SelectionPriority {
  import opened Sorting
  import opened PyDict
  import opened Sums
  import opened Signals
  import opened RoundRobin
  import opened SignalSelector
  import opened SelectorTheorems
  import opened SelectionTheorems

  // ------------------------------------------------------------------ buckets and groups

  ghost function Standings(buckets: seq<seq<Entry>>): (r: seq<Ranking>)
    requires NoneEmpty(buckets)
    ensures |r| == |OrderedSpec(buckets)| && forall x :: 0 <= x < |r| ==> OrderedSpec(buckets)[x] == r[x].ids
  {
    Sort(RankingLess, Rankings(buckets))
  }

  /** Every bucket becomes a group. */
  lemma GroupOfBucket(buckets: seq<seq<Entry>>, j: nat) returns (x: nat)
    requires NoneEmpty(buckets) && j < |buckets|
    ensures x < |Standings(buckets)| && Standings(buckets)[x] == RankingOf(buckets[j])
  {
    SortPerm(RankingLess, Rankings(buckets));
    SamePermElements(Standings(buckets), Rankings(buckets));
    assert Rankings(buckets)[j] in Rankings(buckets);
    x :| x < |Standings(buckets)| && Standings(buckets)[x] == RankingOf(buckets[j]);
  }

  /** Every group comes from a bucket. */
  lemma BucketOfGroup(buckets: seq<seq<Entry>>, x: nat) returns (j: nat)
    requires NoneEmpty(buckets) && x < |OrderedSpec(buckets)|
    ensures j < |buckets| && Standings(buckets)[x] == RankingOf(buckets[j])
  {
    SortPerm(RankingLess, Rankings(buckets));
    SamePermElements(Standings(buckets), Rankings(buckets));
    assert Standings(buckets)[x] in Standings(buckets);
    j :| j < |Rankings(buckets)| && Rankings(buckets)[j] == Standings(buckets)[x];
  }

  lemma EarlierStands(o: seq<Place>, m: nat, k: nat)
    requires Increasing(o) && m < |o| && k < |o| && Before(o[m], o[k])
    ensures m < k
  {
  }

  lemma PicksReachBack<T>(groups: seq<seq<T>>, cap: int, p: Place, q: Place)
    requires p in Picks(groups, cap) && Valid(groups, q) && Before(q, p)
    ensures q in Picks(groups, cap)
  {
    var o := Order(groups, 0);
    OrderFacts(groups, 0);
    var k :| 0 <= k < |Picks(groups, cap)| && Picks(groups, cap)[k] == p;
    assert q in o;
    var m :| 0 <= m < |o| && o[m] == q;
    assert o[k] == p;
    EarlierStands(o, m, k);
    assert Picks(groups, cap)[m] == q;
  }

  lemma PositionOf(entries: seq<Entry>, e: Entry) returns (d: nat)
    requires e in entries
    ensures d < |Sort(EntryLess, entries)| && Sort(EntryLess, entries)[d] == e
    ensures d < |RankingOf(entries).ids| && RankingOf(entries).ids[d] == e.idx
  {
    SortPerm(EntryLess, entries);
    SamePermElements(entries, Sort(EntryLess, entries));
    d :| d < |Sort(EntryLess, entries)| && Sort(EntryLess, entries)[d] == e;
  }

  /** A better entry stands before a worse one. */
  lemma Positions(entries: seq<Entry>, e: Entry, f: Entry) returns (d: nat, g: nat)
    requires e in entries && f in entries && EntryLess(e, f)
    ensures d < g < |RankingOf(entries).ids| && RankingOf(entries).ids[d] == e.idx && RankingOf(entries).ids[g] == f.idx
  {
    d := PositionOf(entries, e);
    g := PositionOf(entries, f);
    GroupIsSorted(entries);
  }

  lemma BestPickedFirst(buckets: seq<seq<Entry>>, n: nat, cap: int, j: nat, e: Entry, f: Entry)
    requires NoneEmpty(buckets) && Partition(buckets, n) && j < |buckets| && e in buckets[j] && f in buckets[j]
    requires EntryLess(e, f) && f.idx in Picked(buckets, cap)
    ensures e.idx in Picked(buckets, cap)
  {
    var x := GroupOfBucket(buckets, j);
    var d, g := Positions(buckets[j], e, f);
    PickedPlaces(buckets, n, cap, (d, x));
    PickedPlaces(buckets, n, cap, (g, x));
    PicksReachBack(OrderedSpec(buckets), cap, (g, x), (d, x));
  }

  /** Inside a bucket the better entry goes first: it is kept whenever a worse one is. */
  lemma BestFirst(b: Batch, cap: int, j: nat, e: Entry, f: Entry)
    requires WellFormed(b) && Faithful(b) && j < |BucketSpec(b)| && e in BucketSpec(b)[j] && f in BucketSpec(b)[j]
    requires EntryLess(e, f) && f.idx in Result(b, cap)
    ensures e.idx in Result(b, cap)
  {
    BatchPartition(b);
    var n := |Times(b)|;
    if n <= cap {
      EntryInRange(BucketSpec(b), n, j, e);
      assert Range(n)[e.idx] == e.idx;
    } else {
      KeptMembers(BucketSpec(b), Times(b), cap);
      BestPickedFirst(BucketSpec(b), n, cap, j, e, f);
    }
  }

  lemma EntryInRange(buckets: seq<seq<Entry>>, n: nat, j: nat, e: Entry)
    requires NoneEmpty(buckets) && Partition(buckets, n) && j < |buckets| && e in buckets[j]
    ensures e.idx < n
  {
    var x := GroupOfBucket(buckets, j);
    var d := PositionOf(buckets[j], e);
    GroupsOfPartition(buckets, n);
    InConcat(OrderedSpec(buckets), (d, x));
  }

  /** The best entry of each of the first `cap` groups is kept. */
  lemma EarlyBestKept(b: Batch, cap: int, j: nat, x: nat)
    requires WellFormed(b) && Faithful(b)
    requires NoneEmpty(BucketSpec(b)) && j < |BucketSpec(b)| && x < |Standings(BucketSpec(b))| && x < cap
    requires Standings(BucketSpec(b))[x] == RankingOf(BucketSpec(b)[j])
    ensures RankingOf(BucketSpec(b)[j]).lead in Result(b, cap)
  {
    BatchPartition(b);
    var buckets := BucketSpec(b);
    var n := |Times(b)|;
    var best := Sort(EntryLess, buckets[j])[0];
    GroupIsSorted(buckets[j]);
    EntryInRange(buckets, n, j, best);
    if n <= cap {
      assert Range(n)[best.idx] == best.idx;
    } else {
      KeptMembers(buckets, Times(b), cap);
      EarlyBestIsPicked(OrderedSpec(buckets), cap, x);
      PickedPlaces(buckets, n, cap, (0, x));
    }
  }

  /** With no more groups than the cap, every group keeps its best item: no pattern disappears. */
  lemma EveryPatternKept(b: Batch, cap: int, j: nat)
    requires WellFormed(b) && Faithful(b) && |BucketSpec(b)| <= cap && j < |BucketSpec(b)|
    ensures exists e :: e in BucketSpec(b)[j] && e.idx in Result(b, cap) && forall f :: f in BucketSpec(b)[j] ==> !EntryLess(f, e)
  {
    BatchPartition(b);
    var buckets := BucketSpec(b);
    var x := GroupOfBucket(buckets, j);
    SortPerm(RankingLess, Rankings(buckets));
    EarlyBestKept(b, cap, j, x);
    GroupIsSorted(buckets[j]);
    var e := Sort(EntryLess, buckets[j])[0];
    assert e in buckets[j];
  }

  // ------------------------------------------------------------------ errors and anomalies first

  predicate HasPrior(bucket: seq<Entry>) {
    exists i :: 0 <= i < |bucket| && bucket[i].grade == PRIOR
  }

  predicate IsPrior(r: Ranking) {
    r.best == PRIOR
  }

  /** The number of buckets holding a prior item. */
  function PriorCount(buckets: seq<seq<Entry>>): nat {
    Tally(HasPrior, buckets)
  }

  lemma {:induction false} PriorRankings(buckets: seq<seq<Entry>>)
    requires NoneEmpty(buckets)
    ensures Tally(IsPrior, Rankings(buckets)) == PriorCount(buckets)
  {
    if buckets != [] {
      var n := |buckets| - 1;
      PriorRankings(buckets[..n]);
      assert Rankings(buckets)[..n] == Rankings(buckets[..n]);
      BestMeansPrior(buckets[n]);
    }
  }

  /** A group with a prior item stands among the first `PriorCount` groups. */
  lemma PriorStandsEarly(buckets: seq<seq<Entry>>, x: nat)
    requires NoneEmpty(buckets) && x < |Standings(buckets)| && Standings(buckets)[x].best == PRIOR
    ensures x < PriorCount(buckets)
  {
    var s := Standings(buckets);
    SortedRankings(buckets);
    PriorBefore(s, x);
    TallyAtMost(IsPrior, s, x);
    PriorStandings(buckets);
  }

  lemma PriorBefore(s: seq<Ranking>, x: nat)
    requires Ascending(RankingLess, s) && x < |s| && s[x].best == PRIOR
    ensures forall y :: 0 <= y <= x ==> IsPrior(s[y])
  {
    forall y | 0 <= y <= x ensures IsPrior(s[y]) {
      if y < x {
        assert !RankingLess(s[x], s[y]);
      }
    }
  }

  lemma PriorStandings(buckets: seq<seq<Entry>>)
    requires NoneEmpty(buckets)
    ensures Tally(IsPrior, Standings(buckets)) == PriorCount(buckets)
  {
    SortPerm(RankingLess, Rankings(buckets));
    TallyPerm(IsPrior, Standings(buckets), Rankings(buckets));
    PriorRankings(buckets);
  }

  /** As long as the cap covers the patterns with prior items, each of them keeps a prior item. */
  lemma PriorPatternsKept(b: Batch, cap: int, j: nat)
    requires WellFormed(b) && Faithful(b) && j < |BucketSpec(b)|
    requires HasPrior(BucketSpec(b)[j]) && PriorCount(BucketSpec(b)) <= cap
    ensures exists e :: e in BucketSpec(b)[j] && e.grade == PRIOR && e.idx in Result(b, cap)
  {
    BatchPartition(b);
    var buckets := BucketSpec(b);
    var x := GroupOfBucket(buckets, j);
    BestMeansPrior(buckets[j]);
    PriorStandsEarly(buckets, x);
    EarlyBestKept(b, cap, j, x);
    GroupIsSorted(buckets[j]);
    var e := Sort(EntryLess, buckets[j])[0];
    assert e in buckets[j];
  }
}
