/** The fair picker of the signal selector and what its picks mean. */
module RoundRobin {

  /** A place in a list of groups: (depth in the group, position of the group). */
  type Place = (nat, nat)

  predicate Valid<T>(groups: seq<seq<T>>, p: Place) {
    p.1 < |groups| && p.0 < |groups[p.1]|
  }

  /** By depth, then by group. */
  predicate Before(p: Place, q: Place) {
    p.0 < q.0 || (p.0 == q.0 && p.1 < q.1)
  }

  function Longest<T>(groups: seq<seq<T>>): nat {
    if groups == [] then 0
    else if |groups[0]| > Longest(groups[1..]) then |groups[0]| else Longest(groups[1..])
  }

  function Total<T>(groups: seq<seq<T>>): nat {
    if groups == [] then 0 else |groups[0]| + Total(groups[1..])
  }

  /** The places of depth `d` from group `i` on. */
  function Layer<T>(groups: seq<seq<T>>, d: nat, i: nat): seq<Place>
    decreases |groups| - i
  {
    if i >= |groups| then []
    else (if d < |groups[i]| then [(d, i)] else []) + Layer(groups, d, i + 1)
  }

  /** All places from depth `d` on, layer by layer. */
  function Order<T>(groups: seq<seq<T>>, d: nat): seq<Place>
    decreases Longest(groups) - d
  {
    if d >= Longest(groups) then [] else Layer(groups, d, 0) + Order(groups, d + 1)
  }

  /** How many items a limit lets through. */
  function Cut(limit: int, total: nat): nat {
    if limit <= 0 then 0 else if limit < total then limit else total
  }

  function Picks<T>(groups: seq<seq<T>>, limit: int): seq<Place> {
    Order(groups, 0)[..Cut(limit, |Order(groups, 0)|)]
  }

  ghost predicate AllValid<T>(groups: seq<seq<T>>, ps: seq<Place>) {
    forall k :: 0 <= k < |ps| ==> Valid(groups, ps[k])
  }

  ghost function Items<T>(groups: seq<seq<T>>, ps: seq<Place>): (r: seq<T>)
    requires AllValid(groups, ps)
    ensures |r| == |ps| && forall k :: 0 <= k < |r| ==> r[k] == groups[ps[k].1][ps[k].0]
  {
    seq(|ps|, k requires 0 <= k < |ps| => groups[ps[k].1][ps[k].0])
  }

  // ------------------------------------------------------------------ the enumeration

  ghost predicate Increasing(ps: seq<Place>) {
    forall a, b :: 0 <= a < b < |ps| ==> Before(ps[a], ps[b])
  }

  lemma {:induction false} LongestBounds<T>(groups: seq<seq<T>>)
    ensures forall i :: 0 <= i < |groups| ==> |groups[i]| <= Longest(groups)
  {
    if groups != [] {
      LongestBounds(groups[1..]);
      forall i | 0 <= i < |groups| ensures |groups[i]| <= Longest(groups) {
        if i > 0 {
          assert groups[1..][i - 1] == groups[i];
        }
      }
    }
  }

  lemma {:induction false} LayerFacts<T>(groups: seq<seq<T>>, d: nat, i: nat)
    ensures Increasing(Layer(groups, d, i))
    ensures forall p :: p in Layer(groups, d, i) <==> Valid(groups, p) && p.0 == d && i <= p.1
    decreases |groups| - i
  {
    if i < |groups| {
      LayerFacts(groups, d, i + 1);
      var rest := Layer(groups, d, i + 1);
      forall a, b | 0 <= a < b < |Layer(groups, d, i)| ensures Before(Layer(groups, d, i)[a], Layer(groups, d, i)[b]) {
        if d < |groups[i]| {
          assert Layer(groups, d, i)[b] == rest[b - 1];
          assert rest[b - 1] in rest;
        }
      }
    }
  }

  lemma {:induction false} OrderFacts<T>(groups: seq<seq<T>>, d: nat)
    ensures Increasing(Order(groups, d))
    ensures forall p :: p in Order(groups, d) <==> Valid(groups, p) && d <= p.0
    decreases Longest(groups) - d
  {
    LongestBounds(groups);
    if d < Longest(groups) {
      LayerFacts(groups, d, 0);
      OrderFacts(groups, d + 1);
      var l := Layer(groups, d, 0);
      var rest := Order(groups, d + 1);
      forall a, b | 0 <= a < b < |l + rest| ensures Before((l + rest)[a], (l + rest)[b]) {
        if a < |l| {
          assert l[a] in l;
        }
        if b >= |l| {
          assert rest[b - |l|] in rest;
        }
      }
    }
  }

  /** `Order` is the one enumeration of all places by (depth, group): increasing, and missing none. */
  lemma {:induction false} OrderIsTheEnumeration<T>(groups: seq<seq<T>>, ps: seq<Place>)
    ensures Increasing(Order(groups, 0)) && AllValid(groups, Order(groups, 0))
    ensures Increasing(ps) && (forall p :: p in ps <==> Valid(groups, p)) ==> ps == Order(groups, 0)
  {
    OrderFacts(groups, 0);
    var o := Order(groups, 0);
    forall k | 0 <= k < |o| ensures Valid(groups, o[k]) {
      assert o[k] in o;
    }
    if Increasing(ps) && forall p :: p in ps <==> Valid(groups, p) {
      SameIncreasing(ps, o);
    }
  }

  lemma {:induction false} SameIncreasing(a: seq<Place>, b: seq<Place>)
    requires Increasing(a) && Increasing(b) && forall p :: p in a <==> p in b
    ensures a == b
  {
    assert b != [] ==> b[0] in b;
    if a != [] {
      assert a[0] in b && b != [];
      assert b[0] in a;
      assert a[0] == b[0];
      forall p | p in a[1..] ensures p in b[1..] {
        assert p in a && p in b;
        var k :| 0 <= k < |a[1..]| && a[1..][k] == p;
        assert a[k + 1] == p;
        var m :| 0 <= m < |b| && b[m] == p;
        assert m > 0 && b[1..][m - 1] == p;
      }
      forall p | p in b[1..] ensures p in a[1..] {
        assert p in b && p in a;
        var k :| 0 <= k < |b[1..]| && b[1..][k] == p;
        assert b[k + 1] == p;
        var m :| 0 <= m < |a| && a[m] == p;
        assert m > 0 && a[1..][m - 1] == p;
      }
      SameIncreasing(a[1..], b[1..]);
      assert a == [a[0]] + a[1..] && b == [b[0]] + b[1..];
    }
  }

  // ------------------------------------------------------------------ the loop

  /** What is left to enumerate when round `d` stands before group `i`. */
  ghost function Rest<T>(groups: seq<seq<T>>, d: nat, i: nat): seq<Place> {
    Layer(groups, d, i) + Order(groups, d + 1)
  }

  ghost function Cursor<T>(group: seq<T>, d: nat): nat {
    if |group| < d then |group| else d
  }

  ghost predicate CursorsAt<T>(groups: seq<seq<T>>, cursors: seq<nat>, d: nat, i: nat) {
    && |cursors| == |groups|
    && forall g :: 0 <= g < |groups| ==> cursors[g] == Cursor(groups[g], if g < i then d + 1 else d)
  }

  lemma RestOfRound<T>(groups: seq<seq<T>>, d: nat)
    ensures Rest(groups, d, 0) == Order(groups, d)
    ensures Rest(groups, d, |groups|) == Order(groups, d + 1)
    ensures (forall g :: 0 <= g < |groups| ==> |groups[g]| <= d) ==> Order(groups, d) == []
  {
    LongestBounds(groups);
    LayerFacts(groups, d, 0);
    OrderFacts(groups, d);
    assert Layer(groups, d, 0) != [] ==> Layer(groups, d, 0)[0] in Layer(groups, d, 0);
    assert Order(groups, d) != [] ==> Order(groups, d)[0] in Order(groups, d);
  }

  /** After `n` picks, round `d` stands before group `i`. */
  ghost predicate Standing<T>(groups: seq<seq<T>>, cursors: seq<nat>, n: nat, d: nat, i: nat) {
    CursorsAt(groups, cursors, d, i) && n <= |Order(groups, 0)| && Order(groups, 0)[n..] == Rest(groups, d, i)
  }

  lemma HeadOf(o: seq<Place>, n: nat, p: Place, rest: seq<Place>)
    requires n <= |o| && o[n..] == [p] + rest
    ensures n < |o| && o[n] == p && o[n + 1..] == rest
  {
    assert |o[n..]| == 1 + |rest|;
    assert o[n] == o[n..][0];
    assert o[n + 1..] == o[n..][1..];
  }

  lemma RestUnfolds<T>(groups: seq<seq<T>>, d: nat, i: nat)
    requires i < |groups|
    ensures Rest(groups, d, i) == (if d < |groups[i]| then [(d, i)] + Rest(groups, d, i + 1) else Rest(groups, d, i + 1))
  {
  }

  lemma CursorsNext<T>(groups: seq<seq<T>>, cursors: seq<nat>, d: nat, i: nat)
    requires i < |groups| && CursorsAt(groups, cursors, d, i)
    ensures cursors[i] < |groups[i]| <==> d < |groups[i]|
    ensures d < |groups[i]| ==> cursors[i] == d && CursorsAt(groups, cursors[i := cursors[i] + 1], d, i + 1)
    ensures d >= |groups[i]| ==> CursorsAt(groups, cursors, d, i + 1)
  {
  }

  lemma {:induction false} Visit<T>(groups: seq<seq<T>>, cursors: seq<nat>, n: nat, d: nat, i: nat)
    requires i < |groups| && Standing(groups, cursors, n, d, i)
    ensures cursors[i] < |groups[i]| ==>
      n < |Order(groups, 0)| && Order(groups, 0)[n] == (d, i) && cursors[i] == d
      && Standing(groups, cursors[i := cursors[i] + 1], n + 1, d, i + 1)
    ensures cursors[i] >= |groups[i]| ==> |groups[i]| <= d && Standing(groups, cursors, n, d, i + 1)
  {
    CursorsNext(groups, cursors, d, i);
    RestUnfolds(groups, d, i);
    if d < |groups[i]| {
      HeadOf(Order(groups, 0), n, (d, i), Rest(groups, d, i + 1));
    }
  }

  lemma Start<T>(groups: seq<seq<T>>)
    ensures Standing(groups, seq(|groups|, _ => 0), 0, 0, 0)
  {
    RestOfRound(groups, 0);
  }

  lemma {:induction false} NextRound<T>(groups: seq<seq<T>>, cursors: seq<nat>, n: nat, d: nat)
    requires Standing(groups, cursors, n, d, |groups|)
    ensures Standing(groups, cursors, n, d + 1, 0)
    ensures (forall g :: 0 <= g < |groups| ==> |groups[g]| <= d) ==> n == |Order(groups, 0)|
  {
    RestOfRound(groups, d);
    RestOfRound(groups, d + 1);
  }

  /** All items in the order of the enumeration. */
  ghost function Enumerated<T>(groups: seq<seq<T>>): (r: seq<T>)
    ensures |r| == |Order(groups, 0)|
  {
    OrderIsTheEnumeration(groups, []);
    Items(groups, Order(groups, 0))
  }

  /** The loop has picked the first items of the enumeration and stands in round `d` before group `i`. */
  ghost predicate Midway<T>(groups: seq<seq<T>>, cursors: seq<nat>, picked: seq<T>, d: nat, i: nat) {
    Standing(groups, cursors, |picked|, d, i) && picked == Enumerated(groups)[..|picked|]
  }

  lemma StartMidway<T>(groups: seq<seq<T>>)
    ensures Midway(groups, seq(|groups|, _ => 0), [], 0, 0)
  {
    Start(groups);
  }

  /** Visiting one group: take its next item, or pass an exhausted group by. */
  lemma {:induction false} VisitGroup<T>(groups: seq<seq<T>>, cursors: seq<nat>, picked: seq<T>, d: nat, i: nat)
    requires i < |groups| && Midway(groups, cursors, picked, d, i)
    ensures |cursors| == |groups|
    ensures cursors[i] < |groups[i]| ==>
      d < Longest(groups) && Midway(groups, cursors[i := cursors[i] + 1], picked + [groups[i][cursors[i]]], d, i + 1)
    ensures cursors[i] >= |groups[i]| ==> |groups[i]| <= d && Midway(groups, cursors, picked, d, i + 1)
  {
    LongestBounds(groups);
    Visit(groups, cursors, |picked|, d, i);
    if cursors[i] < |groups[i]| {
      OrderIsTheEnumeration(groups, []);
      var n := |picked|;
      assert Enumerated(groups)[..n + 1] == Enumerated(groups)[..n] + [Enumerated(groups)[n]];
    }
  }

  /** A round that advances nobody ends the enumeration; any other round leads to the next one. */
  lemma {:induction false} RoundOver<T>(groups: seq<seq<T>>, cursors: seq<nat>, picked: seq<T>, d: nat)
    requires Midway(groups, cursors, picked, d, |groups|)
    ensures Midway(groups, cursors, picked, d + 1, 0)
    ensures (forall g :: 0 <= g < |groups| ==> |groups[g]| <= d) ==> |picked| == |Order(groups, 0)|
  {
    NextRound(groups, cursors, |picked|, d);
  }

  lemma {:induction false} PrefixItems<T>(groups: seq<seq<T>>, n: nat)
    requires n <= |Order(groups, 0)|
    ensures AllValid(groups, Order(groups, 0)[..n]) && Enumerated(groups)[..n] == Items(groups, Order(groups, 0)[..n])
  {
    OrderIsTheEnumeration(groups, []);
  }

  /**
   `_round_robin`: visit the groups in turn, one item each, skipping exhausted groups, until the
   limit is reached or a whole round advances nobody.
   */
  method Pick<T>(groups: seq<seq<T>>, limit: int) returns (picked: seq<T>)
    ensures AllValid(groups, Picks(groups, limit)) && picked == Items(groups, Picks(groups, limit))
  {
    ghost var total := |Order(groups, 0)|;
    ghost var d: nat := 0;
    picked := [];
    var cursors: seq<nat> := seq(|groups|, _ => 0);
    var advanced := true;
    StartMidway(groups);
    while advanced && |picked| < limit
      invariant |picked| <= total && picked == Enumerated(groups)[..|picked|]
      invariant |picked| <= limit || picked == []
      invariant |picked| >= limit || Midway(groups, cursors, picked, d, 0)
      invariant !advanced ==> |picked| >= limit || |picked| == total
      decreases advanced, Longest(groups) + 1 - d, limit - |picked|
    {
      advanced := false;
      var gi := 0;
      while gi < |groups|
        invariant 0 <= gi <= |groups| && |picked| < limit
        invariant Midway(groups, cursors, picked, d, gi)
        invariant advanced ==> d < Longest(groups)
        invariant !advanced ==> forall g :: 0 <= g < gi ==> |groups[g]| <= d
      {
        VisitGroup(groups, cursors, picked, d, gi);
        if cursors[gi] < |groups[gi]| {
          picked := picked + [groups[gi][cursors[gi]]];
          cursors := cursors[gi := cursors[gi] + 1];
          advanced := true;
          if |picked| >= limit {
            break;
          }
        }
        gi := gi + 1;
      }
      if |picked| < limit {
        RoundOver(groups, cursors, picked, d);
        d := d + 1;
      }
    }
    PrefixItems(groups, |picked|);
  }

  // ------------------------------------------------------------------ fairness

  function Count(ps: seq<Place>, i: nat): nat {
    if ps == [] then 0 else (if ps[0].1 == i then 1 else 0) + Count(ps[1..], i)
  }

  lemma {:induction false} CountSnoc(ps: seq<Place>, p: Place, i: nat)
    ensures Count(ps + [p], i) == Count(ps, i) + (if p.1 == i then 1 else 0)
  {
    if ps == [] {
      assert [p][1..] == [];
    } else {
      CountSnoc(ps[1..], p, i);
      assert (ps + [p])[1..] == ps[1..] + [p];
    }
  }

  function Min(a: int, b: int): int {
    if a < b then a else b
  }

  /** How many items group `i` has given when `next` is the next place. */
  ghost function Given<T>(groups: seq<seq<T>>, next: Place, i: nat): int
    requires i < |groups|
  {
    Min(|groups[i]|, next.0 + (if i < next.1 then 1 else 0))
  }

  /** Nothing lies strictly between neighbours of the enumeration. */
  lemma {:induction false} NoGap<T>(groups: seq<seq<T>>, k: nat, p: Place)
    requires k < |Order(groups, 0)| && Valid(groups, p) && Before(Order(groups, 0)[k], p)
    ensures k + 1 < |Order(groups, 0)| && (p == Order(groups, 0)[k + 1] || Before(Order(groups, 0)[k + 1], p))
  {
    OrderFacts(groups, 0);
    var o := Order(groups, 0);
    assert p in o;
    var m :| 0 <= m < |o| && o[m] == p;
    assert m > k;
  }

  lemma {:induction false} GivenStep<T>(groups: seq<seq<T>>, k: nat, i: nat)
    requires k < |Order(groups, 0)| && i < |groups|
    ensures var o := Order(groups, 0);
      Given(groups, o[k], i) + (if o[k].1 == i then 1 else 0)
      == if k + 1 < |o| then Given(groups, o[k + 1], i) else |groups[i]|
  {
    OrderFacts(groups, 0);
    var o := Order(groups, 0);
    var (d, g) := o[k];
    assert o[k] in o;
    if g < i && d < |groups[i]| {
      NoGap(groups, k, (d, i));
    }
    if d + 1 < |groups[i]| {
      NoGap(groups, k, (d + 1, i));
    }
    if k + 1 < |o| {
      assert o[k + 1] in o && Before(o[k], o[k + 1]);
      var (e, h) := o[k + 1];
      if e > d + 1 {
        NoGap(groups, k, (d + 1, h));
        assert false;
      }
    }
  }

  /** After `k` picks every group has given as much as its length, the depth and its position say. */
  lemma {:induction false} CountsAreGiven<T>(groups: seq<seq<T>>, k: nat, i: nat)
    requires k <= |Order(groups, 0)| && i < |groups|
    ensures var o := Order(groups, 0);
      Count(o[..k], i) == if k < |o| then Given(groups, o[k], i) else |groups[i]|
  {
    OrderFacts(groups, 0);
    var o := Order(groups, 0);
    if k == 0 {
      assert |groups[i]| > 0 ==> Valid(groups, (0, i)) && (0, i) in o;
      if o != [] {
        FirstGiven(groups, i);
      }
    } else {
      CountsAreGiven(groups, k - 1, i);
      assert o[..k] == o[..k - 1] + [o[k - 1]];
      CountSnoc(o[..k - 1], o[k - 1], i);
      GivenStep(groups, k - 1, i);
    }
  }

  lemma {:induction false} FirstGiven<T>(groups: seq<seq<T>>, i: nat)
    requires Order(groups, 0) != [] && i < |groups|
    ensures Given(groups, Order(groups, 0)[0], i) == 0
  {
    OrderFacts(groups, 0);
    var o := Order(groups, 0);
    assert o[0] in o;
    assert Valid(groups, (0, o[0].1));
    var m :| 0 <= m < |o| && o[m] == (0, o[0].1);
    if |groups[i]| > 0 {
      assert Valid(groups, (0, i));
      var k :| 0 <= k < |o| && o[k] == (0, i);
    }
  }

  /** How many items group `i` contributes under a limit. */
  function Share<T>(groups: seq<seq<T>>, limit: int, i: nat): nat {
    Count(Picks(groups, limit), i)
  }

  /**
   Max-min fairness: while group `i` has items left, nobody is more than one ahead of it, and no
   later group is ahead at all.
   */
  lemma SharesAreFair<T>(groups: seq<seq<T>>, limit: int, i: nat, j: nat)
    requires i < |groups| && j < |groups|
    ensures Share(groups, limit, i) <= |groups[i]|
    ensures Share(groups, limit, i) < |groups[i]| ==>
      && Share(groups, limit, j) <= Share(groups, limit, i) + 1
      && (j > i ==> Share(groups, limit, j) <= Share(groups, limit, i))
  {
    var k := Cut(limit, |Order(groups, 0)|);
    CountsAreGiven(groups, k, i);
    CountsAreGiven(groups, k, j);
  }

  function Sum(alloc: seq<nat>): nat {
    if alloc == [] then 0 else alloc[0] + Sum(alloc[1..])
  }

  function Shares<T>(groups: seq<seq<T>>, ps: seq<Place>): (r: seq<nat>)
    ensures |r| == |groups| && forall i :: 0 <= i < |r| ==> r[i] == Count(ps, i)
  {
    seq(|groups|, i requires 0 <= i => Count(ps, i))
  }

  lemma {:induction false} SumUpdate(s: seq<nat>, i: nat, v: nat)
    requires i < |s|
    ensures Sum(s[i := v]) == Sum(s) - s[i] + v
  {
    if i == 0 {
      assert s[0 := v][1..] == s[1..];
    } else {
      SumUpdate(s[1..], i - 1, v);
      assert s[i := v][1..] == s[1..][i - 1 := v];
    }
  }

  lemma {:induction false} SumZero(s: seq<nat>)
    requires forall i :: 0 <= i < |s| ==> s[i] == 0
    ensures Sum(s) == 0
  {
    if s != [] {
      SumZero(s[1..]);
    }
  }

  lemma {:induction false} SharesSum<T>(groups: seq<seq<T>>, ps: seq<Place>)
    requires AllValid(groups, ps)
    ensures Sum(Shares(groups, ps)) == |ps|
  {
    if ps == [] {
      SumZero(Shares(groups, []));
    } else {
      var n := |ps| - 1;
      assert ps == ps[..n] + [ps[n]];
      SharesSum(groups, ps[..n]);
      var a := Shares(groups, ps[..n]);
      var i := ps[n].1;
      forall g | 0 <= g < |groups| ensures Shares(groups, ps)[g] == a[i := a[i] + 1][g] {
        CountSnoc(ps[..n], ps[n], g);
      }
      assert Shares(groups, ps) == a[i := a[i] + 1];
      SumUpdate(a, i, a[i] + 1);
    }
  }

  lemma {:induction false} SomeSmaller(a: seq<nat>, b: seq<nat>, i: nat)
    requires |a| == |b| && i < |a| && a[i] > b[i] && Sum(a) <= Sum(b)
    ensures exists j :: 0 <= j < |a| && a[j] < b[j]
  {
    if forall j :: 0 <= j < |a| ==> a[j] >= b[j] {
      SumMonotone(a, b, i);
      assert false;
    }
  }

  lemma {:induction false} SumMonotone(a: seq<nat>, b: seq<nat>, i: nat)
    requires |a| == |b| && forall j :: 0 <= j < |a| ==> a[j] >= b[j]
    ensures Sum(a) >= Sum(b) && (i < |a| && a[i] > b[i] ==> Sum(a) > Sum(b))
  {
    if a != [] {
      if i > 0 {
        SumMonotone(a[1..], b[1..], i - 1);
      } else {
        SumMonotone(a[1..], b[1..], |a|);
      }
    }
  }

  /**
   Optimality: any other allocation within the limit that gives group `i` more must take from some
   group that is at most one ahead of `i`.
   */
  lemma {:induction false} SharesAreOptimal<T>(groups: seq<seq<T>>, limit: int, alloc: seq<nat>, i: nat)
    requires |alloc| == |groups| && i < |groups| && Sum(alloc) <= limit
    requires forall g :: 0 <= g < |groups| ==> alloc[g] <= |groups[g]|
    requires alloc[i] > Share(groups, limit, i)
    ensures exists j :: 0 <= j < |groups| && alloc[j] < Share(groups, limit, j)
                        && Share(groups, limit, j) <= Share(groups, limit, i) + 1
  {
    var o := Order(groups, 0);
    var k := Cut(limit, |o|);
    OrderIsTheEnumeration(groups, o);
    CountsAreGiven(groups, k, i);
    SharesSum(groups, Picks(groups, limit));
    var shares := Shares(groups, Picks(groups, limit));
    SomeSmaller(alloc, shares, i);
    var j :| 0 <= j < |alloc| && alloc[j] < shares[j];
    SharesAreFair(groups, limit, i, j);
  }

  /** With no more nonempty groups than the limit, every group's best item is picked. */
  lemma {:induction false} EveryBestIsPicked<T>(groups: seq<seq<T>>, limit: int, i: nat)
    requires i < |groups| && groups[i] != [] && Nonempty(groups) <= limit
    ensures (0, i) in Picks(groups, limit)
  {
    LayerFacts(groups, 0, 0);
    LongestBounds(groups);
    FirstLayerCounts(groups, 0);
    assert groups[0..] == groups;
    var l := Layer(groups, 0, 0);
    var o := Order(groups, 0);
    assert o == l + Order(groups, 1);
    assert (0, i) in l;
    var m :| 0 <= m < |l| && l[m] == (0, i);
    assert Picks(groups, limit)[m] == o[m] == l[m];
  }

  lemma {:induction false} LayerStartsLate(l: seq<Place>, m: nat)
    requires Increasing(l) && m < |l| && forall k :: 0 <= k < |l| ==> l[k].0 == 0
    ensures l[m].1 >= m
  {
    if m > 0 {
      LayerStartsLate(l, m - 1);
      assert Before(l[m - 1], l[m]);
    }
  }

  /** The best item of each of the first `limit` groups is picked. */
  lemma EarlyBestIsPicked<T>(groups: seq<seq<T>>, limit: int, i: nat)
    requires i < |groups| && groups[i] != [] && i < limit
    ensures (0, i) in Picks(groups, limit)
  {
    LayerFacts(groups, 0, 0);
    LongestBounds(groups);
    var l := Layer(groups, 0, 0);
    var o := Order(groups, 0);
    assert o == l + Order(groups, 1);
    assert (0, i) in l;
    var m :| 0 <= m < |l| && l[m] == (0, i);
    forall k | 0 <= k < |l| ensures l[k].0 == 0 {
      assert l[k] in l;
    }
    LayerStartsLate(l, m);
    assert Picks(groups, limit)[m] == o[m] == l[m];
  }

  /** The first layer has one place per nonempty group. */
  lemma {:induction false} FirstLayerCounts<T>(groups: seq<seq<T>>, i: nat)
    requires i <= |groups|
    ensures |Layer(groups, 0, i)| == Nonempty(groups[i..])
    decreases |groups| - i
  {
    if i < |groups| {
      FirstLayerCounts(groups, i + 1);
      assert groups[i..][1..] == groups[i + 1..];
    }
  }

  function Nonempty<T>(groups: seq<seq<T>>): nat {
    if groups == [] then 0 else (if groups[0] == [] then 0 else 1) + Nonempty(groups[1..])
  }

  /** Raising the limit never drops an item: the picks only grow at the end. */
  lemma PicksGrow<T>(groups: seq<seq<T>>, limit: int, more: int)
    requires limit <= more
    ensures Picks(groups, limit) <= Picks(groups, more)
  {
  }

  /** All items are picked when the limit allows. */
  lemma {:induction false} OrderLength<T>(groups: seq<seq<T>>)
    ensures |Order(groups, 0)| == Total(groups)
  {
    var o := Order(groups, 0);
    OrderIsTheEnumeration(groups, o);
    SharesSum(groups, o);
    forall i | 0 <= i < |groups| ensures Shares(groups, o)[i] == |groups[i]| {
      CountsAreGiven(groups, |o|, i);
      assert o[..|o|] == o;
    }
    SumOfLengths(groups, Shares(groups, o));
  }

  lemma {:induction false} SumOfLengths<T>(groups: seq<seq<T>>, s: seq<nat>)
    requires |s| == |groups| && forall i :: 0 <= i < |s| ==> s[i] == |groups[i]|
    ensures Sum(s) == Total(groups)
  {
    if s != [] {
      SumOfLengths(groups[1..], s[1..]);
    }
  }
}
