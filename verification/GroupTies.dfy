/** Groups of equal grade and size: the smallest index that is documented against the index of the best item. */
module GroupTies {
  import opened Wrappers
  import opened Sorting
  import opened PyDict
  import opened Signals
  import opened SignalSelector
  import opened SelectorTheorems
  import opened SelectionTheorems
  import opened SelectionPriority
  import opened ModalityTheorems

  function Least(ids: seq<nat>): nat {
    if ids == [] then 0
    else if |ids| == 1 || ids[0] < Least(ids[1..]) then ids[0]
    else Least(ids[1..])
  }

  /** The sort key as documented: the smallest index breaks ties. */
  function ByLeast(r: Ranking): Ranking {
    r.(lead := Least(r.ids))
  }

  function LeastRankings(buckets: seq<seq<Entry>>): seq<Ranking>
    requires NoneEmpty(buckets)
  {
    MapSeq(ByLeast, Rankings(buckets))
  }

  /** The documented order of the groups: best grade, larger group, smallest index. */
  function DocumentedOrder(buckets: seq<seq<Entry>>): seq<seq<nat>>
    requires NoneEmpty(buckets)
  {
    MapSeq(Ids, Sort(RankingLess, LeastRankings(buckets)))
  }

  /** Two buckets of equal size whose best items have the same grade. */
  predicate Tied(a: seq<Entry>, b: seq<Entry>)
    requires a != [] && b != []
  {
    |a| == |b| && RankingOf(a).best == RankingOf(b).best
  }

  /** The index of the best item and the smallest index compare two buckets alike. */
  predicate Alike(a: seq<Entry>, b: seq<Entry>)
    requires a != [] && b != []
  {
    RankingOf(a).lead < RankingOf(b).lead <==> Least(BucketIds(a)) < Least(BucketIds(b))
  }

  ghost predicate TiesAgree(buckets: seq<seq<Entry>>)
    requires NoneEmpty(buckets)
  {
    forall a, b :: 0 <= a < |buckets| && 0 <= b < |buckets| && Tied(buckets[a], buckets[b]) ==> Alike(buckets[a], buckets[b])
  }

  // ------------------------------------------------------------------ the smallest index

  lemma {:induction false} LeastBounds(ids: seq<nat>)
    requires ids != []
    ensures Least(ids) in ids && forall x :: x in ids ==> Least(ids) <= x
  {
    if |ids| > 1 {
      LeastBounds(ids[1..]);
      forall x | x in ids ensures Least(ids) <= x {
        assert x == ids[0] || x in ids[1..];
      }
    }
  }

  lemma {:induction false} LeastPerm(a: seq<nat>, b: seq<nat>)
    requires multiset(a) == multiset(b)
    ensures Least(a) == Least(b)
  {
    SamePermElements(a, b);
    if a != [] {
      LeastBounds(a);
      LeastBounds(b);
    }
  }

  /** Sorting a bucket does not change its smallest index, which is the index of one of its items. */
  lemma LeastOfBucket(bucket: seq<Entry>)
    requires bucket != []
    ensures ByLeast(RankingOf(bucket)) == Ranking(RankingOf(bucket).best, -|bucket|, Least(BucketIds(bucket)), RankingOf(bucket).ids)
    ensures exists i :: 0 <= i < |bucket| && bucket[i].idx == Least(BucketIds(bucket))
  {
    SortPerm(EntryLess, bucket);
    RankingIds(bucket);
    LeastPerm(RankingOf(bucket).ids, BucketIds(bucket));
    LeastBounds(BucketIds(bucket));
    var i :| 0 <= i < |bucket| && BucketIds(bucket)[i] == Least(BucketIds(bucket));
  }

  // ------------------------------------------------------------------ the documented order

  lemma LeastKeysDiffer(buckets: seq<seq<Entry>>, a: nat, b: nat)
    requires NoneEmpty(buckets) && DisjointBuckets(buckets) && a < |buckets| && b < |buckets|
    ensures a != b ==>
      && Least(BucketIds(buckets[a])) != Least(BucketIds(buckets[b]))
      && RankingOf(buckets[a]).lead != RankingOf(buckets[b]).lead
      && RankingOf(buckets[a]).ids != RankingOf(buckets[b]).ids
  {
    LeastOfBucket(buckets[a]);
    LeastOfBucket(buckets[b]);
    LeadInBucket(buckets[a]);
    LeadInBucket(buckets[b]);
  }

  lemma DocumentedAscends(buckets: seq<seq<Entry>>)
    requires NoneEmpty(buckets)
    ensures var s := Sort(RankingLess, LeastRankings(buckets));
      Ascending(RankingLess, s) && multiset(s) == multiset(LeastRankings(buckets)) && |s| == |buckets|
  {
    var rs := LeastRankings(buckets);
    var dom := set x | x in rs;
    RankingLessWeak(dom);
    WithinItself(rs);
    SortAscends(RankingLess, rs, dom);
    SortPerm(RankingLess, rs);
  }

  /** Where ties agree, the code's order also ascends by the documented key. */
  lemma AgreeingAscends(buckets: seq<seq<Entry>>)
    requires NoneEmpty(buckets) && TiesAgree(buckets)
    ensures Ascending(RankingLess, MapSeq(ByLeast, Standings(buckets)))
  {
    var s := Standings(buckets);
    SortedRankings(buckets);
    forall x, y | 0 <= x < y < |s| ensures !RankingLess(ByLeast(s[y]), ByLeast(s[x])) {
      var a := BucketOfGroup(buckets, x);
      var b := BucketOfGroup(buckets, y);
      LeastOfBucket(buckets[a]);
      LeastOfBucket(buckets[b]);
      SortPerm(EntryLess, buckets[a]);
      SortPerm(EntryLess, buckets[b]);
      assert !RankingLess(s[y], s[x]);
    }
  }

  lemma LeastKeysDistinct(buckets: seq<seq<Entry>>, x: Ranking, y: Ranking)
    requires NoneEmpty(buckets) && DisjointBuckets(buckets) && x in LeastRankings(buckets) && y in LeastRankings(buckets)
    requires !RankingLess(x, y) && !RankingLess(y, x)
    ensures x == y
  {
    var a :| 0 <= a < |buckets| && LeastRankings(buckets)[a] == x;
    var b :| 0 <= b < |buckets| && LeastRankings(buckets)[b] == y;
    LeastOfBucket(buckets[a]);
    LeastOfBucket(buckets[b]);
    LeastKeysDiffer(buckets, a, b);
  }

  lemma AgreeingIsDocumented(buckets: seq<seq<Entry>>)
    requires NoneEmpty(buckets) && DisjointBuckets(buckets) && TiesAgree(buckets)
    ensures DocumentedOrder(buckets) == OrderedSpec(buckets)
  {
    var s := Sort(RankingLess, LeastRankings(buckets));
    var t := MapSeq(ByLeast, Standings(buckets));
    DocumentedAscends(buckets);
    AgreeingAscends(buckets);
    SortPerm(RankingLess, Rankings(buckets));
    MapPerm(ByLeast, Standings(buckets), Rankings(buckets));
    SamePermElements(s, LeastRankings(buckets));
    forall x, y | x in s && y in s && !RankingLess(x, y) && !RankingLess(y, x) ensures x == y {
      LeastKeysDistinct(buckets, x, y);
    }
    SortedIsUnique(RankingLess, s, t);
  }

  /** Every group of the documented order comes from a bucket. */
  lemma DocumentedBucket(buckets: seq<seq<Entry>>, x: nat) returns (a: nat)
    requires NoneEmpty(buckets) && x < |DocumentedOrder(buckets)|
    ensures a < |buckets| && Sort(RankingLess, LeastRankings(buckets))[x] == ByLeast(RankingOf(buckets[a]))
  {
    var s := Sort(RankingLess, LeastRankings(buckets));
    DocumentedAscends(buckets);
    SamePermElements(s, LeastRankings(buckets));
    assert s[x] in s;
    a :| a < |buckets| && LeastRankings(buckets)[a] == s[x];
  }

  /** Equal lists of groups stand for the same buckets, place by place. */
  lemma SameStandings(buckets: seq<seq<Entry>>, x: nat)
    requires NoneEmpty(buckets) && DisjointBuckets(buckets) && DocumentedOrder(buckets) == OrderedSpec(buckets)
    requires x < |Standings(buckets)|
    ensures x < |DocumentedOrder(buckets)|
    ensures Sort(RankingLess, LeastRankings(buckets))[x] == ByLeast(Standings(buckets)[x])
  {
    var a := DocumentedBucket(buckets, x);
    var b := BucketOfGroup(buckets, x);
    assert DocumentedOrder(buckets)[x] == OrderedSpec(buckets)[x];
    LeastKeysDiffer(buckets, a, b);
  }

  /** In a sorted list, position tells which of two different keys is smaller. */
  lemma PositionTells(s: seq<Ranking>, x: nat, y: nat)
    requires Ascending(RankingLess, s) && x < |s| && y < |s| && (RankingLess(s[x], s[y]) || RankingLess(s[y], s[x]))
    ensures x < y <==> RankingLess(s[x], s[y])
  {
  }

  /** Of two tied buckets, the one with the smaller index of the best item stands first. */
  lemma TiedStand(buckets: seq<seq<Entry>>, a: nat, b: nat, x: nat, y: nat)
    requires NoneEmpty(buckets) && DisjointBuckets(buckets) && a < |buckets| && b < |buckets| && a != b
    requires Tied(buckets[a], buckets[b]) && x < |Standings(buckets)| && y < |Standings(buckets)|
    requires Standings(buckets)[x] == RankingOf(buckets[a]) && Standings(buckets)[y] == RankingOf(buckets[b])
    ensures x < y <==> RankingOf(buckets[a]).lead < RankingOf(buckets[b]).lead
  {
    LeastKeysDiffer(buckets, a, b);
    StandsBefore(buckets, x, y);
    SortPerm(EntryLess, buckets[a]);
    SortPerm(EntryLess, buckets[b]);
  }

  lemma DocumentedAgrees(buckets: seq<seq<Entry>>, a: nat, b: nat)
    requires NoneEmpty(buckets) && DisjointBuckets(buckets) && DocumentedOrder(buckets) == OrderedSpec(buckets)
    requires a < |buckets| && b < |buckets| && Tied(buckets[a], buckets[b])
    ensures Alike(buckets[a], buckets[b])
  {
    if a != b {
      var x := GroupOfBucket(buckets, a);
      var y := GroupOfBucket(buckets, b);
      TiedStand(buckets, a, b, x, y);
      SameStandings(buckets, x);
      SameStandings(buckets, y);
      LeastKeysDiffer(buckets, a, b);
      LeastOfBucket(buckets[a]);
      LeastOfBucket(buckets[b]);
      DocumentedAscends(buckets);
      PositionTells(Sort(RankingLess, LeastRankings(buckets)), x, y);
    }
  }

  // ------------------------------------------------------------------ every batch

  /** Even where a series is overwritten, no index is in two buckets. */
  lemma BucketsAreDisjoint(b: Batch)
    requires WellFormed(b)
    ensures NoneEmpty(BucketSpec(b)) && DisjointBuckets(BucketSpec(b))
  {
    BatchPartition(b);
    var n := |Times(b)|;
    if Faithful(b) {
      PartitionIsDisjoint(BucketSpec(b), n);
    } else {
      var d := SeriesOf(b.metrics, b.trigger);
      var vals := GradeAll(d.vals);
      var u := Unparsed(b.metrics, n);
      GradedIndices(b.metrics, b.trigger);
      GradeAllLength(d.vals);
      IndicesSnoc(vals, u);
      PartitionIsDisjoint(vals + [u], n);
      ReplacedIsDisjoint(vals, u, Find(d.keys, UNPARSED));
    }
  }

  lemma ReplacedIsDisjoint(vals: seq<seq<Entry>>, u: seq<Entry>, i: nat)
    requires DisjointBuckets(vals + [u])
    ensures DisjointBuckets(vals) && (i < |vals| ==> DisjointBuckets(vals[i := u]))
  {
    var all: seq<seq<Entry>> := vals + [u];
    forall a, b, m, k | 0 <= a < |vals| && 0 <= b < |vals| && a != b && 0 <= m < |vals[a]| && 0 <= k < |vals[b]|
      ensures vals[a][m].idx != vals[b][k].idx
    {
      assert all[a][m].idx != all[b][k].idx;
    }
    if i < |vals| {
      var w: seq<seq<Entry>> := vals[i := u];
      forall a, b, m, k | 0 <= a < |w| && 0 <= b < |w| && a != b && 0 <= m < |w[a]| && 0 <= k < |w[b]|
        ensures w[a][m].idx != w[b][k].idx
      {
        var c := if a == i then |vals| else a;
        var e := if b == i then |vals| else b;
        assert all[c][m].idx != all[e][k].idx;
      }
    }
  }

  /**
   The documentation breaks ties between groups by the smallest index; the code uses the index of the
   best item. For every batch the two give the same list of groups exactly when any two groups of equal
   best grade and size compare alike by both.
   */
  lemma TieBreakerExactly(b: Batch)
    requires WellFormed(b)
    ensures NoneEmpty(BucketSpec(b))
    ensures DocumentedOrder(BucketSpec(b)) == OrderedSpec(BucketSpec(b)) <==> TiesAgree(BucketSpec(b))
  {
    BucketsAreDisjoint(b);
    var buckets := BucketSpec(b);
    if TiesAgree(buckets) {
      AgreeingIsDocumented(buckets);
    }
    if DocumentedOrder(buckets) == OrderedSpec(buckets) {
      forall x, y | 0 <= x < |buckets| && 0 <= y < |buckets| && Tied(buckets[x], buckets[y])
        ensures Alike(buckets[x], buckets[y])
      {
        DocumentedAgrees(buckets, x, y);
      }
    }
  }

  // ------------------------------------------------------------------ a batch on which they differ

  // Two patterns of two lines, each with one error line: the first pattern starts earlier, but its error comes later.

  const QUIET := LogItem("api", Info, None)
  const LOUD := LogItem("api", Error, None)
  const CROSSED := [QUIET, LOUD, QUIET, LOUD]
  const PATTERNS: seq<nat> := [0, 1, 1, 0]

  lemma {:induction false} FirstTwo<E>(ks: seq<Option<nat>>, es: seq<E>)
    requires |ks| == |es| == 4 && ks[0] == Some(0) && ks[1] == Some(1)
    ensures Group(ks, es, 2) == Dict([0, 1], [[es[0]], [es[1]]])
  {
    var none: Dict<nat, E> := Dict([], []);
    assert Group(ks, es, 0) == none;
    var one: Dict<nat, E> := Append(none, 0, es[0]);
    assert one.keys == [0] && one.vals == [[es[0]]];
    var two: Dict<nat, E> := Append(one, 1, es[1]);
    assert two.keys == [0, 1] && two.vals == [[es[0]], [es[1]]];
  }

  lemma AppendAt<E>(d: Dict<nat, E>, i: nat, e: E)
    requires |d.keys| == |d.vals| && i < |d.keys| && Distinct(d.keys)
    ensures Append(d, d.keys[i], e) == Dict(d.keys, d.vals[i := d.vals[i] + [e]])
  {
    assert Find(d.keys, d.keys[i]) == i;
  }

  /** Four elements whose keys cross: first, second, second, first. */
  lemma {:induction false} CrossedGroups<E>(ks: seq<Option<nat>>, es: seq<E>)
    requires |ks| == |es| == 4 && ks[0] == ks[3] == Some(0) && ks[1] == ks[2] == Some(1)
    ensures Group(ks, es, 4).vals == [[es[0], es[3]], [es[1], es[2]]]
  {
    FirstTwo(ks, es);
    var two := Group(ks, es, 2);
    AppendAt(two, 1, es[2]);
    var three := Append(two, 1, es[2]);
    AppendAt(three, 0, es[3]);
    assert [es[0]] + [es[3]] == [es[0], es[3]] && [es[1]] + [es[2]] == [es[1], es[2]];
    var four := Append(three, 0, es[3]);
    assert four.vals == [[es[0], es[3]], [es[1], es[2]]];
    assert Group(ks, es, 3) == three && Group(ks, es, 4) == four;
  }

  lemma CrossedBuckets()
    ensures LogSpec(CROSSED, PATTERNS) == [[Entry(2, 0), Entry(0, 3)], [Entry(0, 1), Entry(2, 2)]]
  {
    var es := LogEntries(CROSSED);
    assert es == [Entry(2, 0), Entry(0, 1), Entry(2, 2), Entry(0, 3)];
    CrossedGroups(LogKeys(PATTERNS), es);
  }

  lemma SortTwo<T>(less: (T, T) -> bool, a: T, b: T)
    ensures Sort(less, [a, b]) == if less(b, a) then [b, a] else [a, b]
  {
    assert [a, b][1..] == [b] && [b][1..] == [];
    assert Sort(less, [b]) == Insert(less, b, Sort(less, [])) == [b];
    assert Insert(less, a, []) == [a];
    assert Insert(less, a, [b]) == if less(b, a) then [b] + [a] else [a] + [b];
  }

  lemma CrossedRankings(buckets: seq<seq<Entry>>)
    requires buckets == [[Entry(2, 0), Entry(0, 3)], [Entry(0, 1), Entry(2, 2)]]
    ensures NoneEmpty(buckets) && Rankings(buckets) == [Ranking(0, -2, 3, [3, 0]), Ranking(0, -2, 1, [1, 2])]
  {
    SortTwo(EntryLess, Entry(2, 0), Entry(0, 3));
    SortTwo(EntryLess, Entry(0, 1), Entry(2, 2));
    assert RankingOf(buckets[0]) == Ranking(0, -2, 3, [3, 0]);
    assert RankingOf(buckets[1]) == Ranking(0, -2, 1, [1, 2]);
  }

  /** The code lists the pattern with the earlier error first, the documentation the one that starts earlier. */
  lemma CrossedOrders()
    ensures NoneEmpty(LogSpec(CROSSED, PATTERNS))
    ensures OrderedSpec(LogSpec(CROSSED, PATTERNS)) == [[1, 2], [3, 0]]
    ensures DocumentedOrder(LogSpec(CROSSED, PATTERNS)) == [[3, 0], [1, 2]]
  {
    CrossedBuckets();
    var buckets := LogSpec(CROSSED, PATTERNS);
    CrossedRankings(buckets);
    var a, b := Ranking(0, -2, 3, [3, 0]), Ranking(0, -2, 1, [1, 2]);
    SortTwo(RankingLess, a, b);
    assert Least([0]) == 0 && Least([2]) == 2 && [3, 0][1..] == [0] && [1, 2][1..] == [2];
    assert ByLeast(a) == a.(lead := 0) && ByLeast(b) == b;
    assert LeastRankings(buckets) == [ByLeast(a), ByLeast(b)];
    SortTwo(RankingLess, ByLeast(a), ByLeast(b));
  }

  /** With a cap of one, line 1 is sent; the documented order would have sent line 3. */
  lemma TieBreakerMatters()
    ensures NoneEmpty(LogSpec(CROSSED, PATTERNS)) && !TiesAgree(LogSpec(CROSSED, PATTERNS))
    ensures Result(Logs(CROSSED, PATTERNS), 1) == [1]
  {
    var b := Logs(CROSSED, PATTERNS);
    CrossedOrders();
    TieBreakerExactly(b);
    var j := BucketOfGroup(BucketSpec(b), 0);
    GroupIsSorted(BucketSpec(b)[j]);
    TopAlone(b, j);
    assert OrderedSpec(BucketSpec(b))[0] == RankingOf(BucketSpec(b)[j]).ids;
  }

  /** With a cap of one, the best item of the first group is all that is kept. */
  lemma TopAlone(b: Batch, j: nat)
    requires WellFormed(b) && Faithful(b) && |Times(b)| > 1 && NoneEmpty(BucketSpec(b)) && j < |BucketSpec(b)|
    requires Standings(BucketSpec(b)) != [] && Standings(BucketSpec(b))[0] == RankingOf(BucketSpec(b)[j])
    ensures Result(b, 1) == [RankingOf(BucketSpec(b)[j]).lead]
  {
    EarlyBestKept(b, 1, j, 0);
    KeptIsASubset(b, 1);
  }
}
