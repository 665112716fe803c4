/** Totals over lists, which ignore order and grouping, and list comprehensions with a condition. */
module Sums {
  import opened Sorting
  import opened PyDict

  function SumBy<T>(f: T -> int, s: seq<T>): int {
    if s == [] then 0 else SumBy(f, s[..|s| - 1]) + f(s[|s| - 1])
  }

  function Tally<T>(p: T -> bool, s: seq<T>): nat {
    if s == [] then 0 else Tally(p, s[..|s| - 1]) + (if p(s[|s| - 1]) then 1 else 0)
  }

  function Weight<T>(p: T -> bool): T -> int {
    x => if p(x) then 1 else 0
  }

  lemma {:induction false} TallyIsSum<T>(p: T -> bool, s: seq<T>)
    ensures Tally(p, s) == SumBy(Weight(p), s)
  {
    if s != [] {
      TallyIsSum(p, s[..|s| - 1]);
    }
  }

  lemma {:induction false} SumAppend<T>(f: T -> int, a: seq<T>, b: seq<T>)
    ensures SumBy(f, a + b) == SumBy(f, a) + SumBy(f, b)
  {
    if b == [] {
      assert a + b == a;
    } else {
      SumAppend(f, a, b[..|b| - 1]);
      assert (a + b)[..|a + b| - 1] == a + b[..|b| - 1];
    }
  }

  lemma {:induction false} SumSnoc<T>(f: T -> int, s: seq<T>, x: T)
    ensures SumBy(f, s + [x]) == SumBy(f, s) + f(x)
  {
    assert (s + [x])[..|s|] == s;
  }

  lemma {:induction false} SumHead<T>(f: T -> int, s: seq<T>)
    requires s != []
    ensures SumBy(f, s) == f(s[0]) + SumBy(f, s[1..])
  {
    SumAppend(f, [s[0]], s[1..]);
    assert s == [s[0]] + s[1..];
    SumSnoc(f, [], s[0]);
    assert [] + [s[0]] == [s[0]];
  }

  lemma {:induction false} SumAround<T>(f: T -> int, a: seq<T>, x: T, c: seq<T>)
    ensures SumBy(f, a + [x] + c) == SumBy(f, a + c) + f(x)
  {
    SumAppend(f, a + [x], c);
    SumSnoc(f, a, x);
    SumAppend(f, a, c);
  }

  lemma {:induction false} SumWithout<T>(f: T -> int, s: seq<T>, m: nat)
    requires m < |s|
    ensures SumBy(f, s) == SumBy(f, Without(s, m)) + f(s[m])
  {
    var a, c := SplitAt(s, m);
    SumAround(f, a, s[m], c);
  }

  lemma {:induction false} AllZero<T>(f: T -> int, s: seq<T>)
    requires forall b :: 0 <= b < |s| ==> f(s[b]) == 0
    ensures SumBy(f, s) == 0
  {
    if s != [] {
      AllZero(f, s[..|s| - 1]);
    }
  }

  lemma {:induction false} OnlyOneOf<T>(f: T -> int, s: seq<T>, a: nat)
    requires a < |s| && forall b :: 0 <= b < |s| && b != a ==> f(s[b]) == 0
    ensures SumBy(f, s) == f(s[a])
  {
    SumAround(f, s[..a], s[a], s[a + 1..]);
    assert s == s[..a] + [s[a]] + s[a + 1..];
    AllZero(f, s[..a] + s[a + 1..]);
  }

  /** A total does not depend on the order. */
  lemma {:induction false} SumPerm<T>(f: T -> int, a: seq<T>, b: seq<T>)
    requires multiset(a) == multiset(b)
    ensures SumBy(f, a) == SumBy(f, b)
  {
    SamePermElements(a, b);
    if a != [] {
      assert a[0] in b;
      var m :| 0 <= m < |b| && b[m] == a[0];
      RemoveBoth(a, b, m);
      SumPerm(f, a[1..], Without(b, m));
      WithoutFirst(a);
      SumWithout(f, a, 0);
      SumWithout(f, b, m);
    }
  }

  lemma {:induction false} TallyPerm<T>(p: T -> bool, a: seq<T>, b: seq<T>)
    requires multiset(a) == multiset(b)
    ensures Tally(p, a) == Tally(p, b)
  {
    TallyIsSum(p, a);
    TallyIsSum(p, b);
    SumPerm(Weight(p), a, b);
  }

  lemma {:induction false} TallyAtMost<T>(p: T -> bool, s: seq<T>, k: nat)
    requires k < |s| && forall i :: 0 <= i <= k ==> p(s[i])
    ensures k < Tally(p, s)
  {
    if k == |s| - 1 {
      if k > 0 {
        TallyAtMost(p, s[..|s| - 1], k - 1);
      }
    } else {
      TallyAtMost(p, s[..|s| - 1], k);
    }
  }

  // ------------------------------------------------------------------ comprehensions

  /** `[x for x in s if p(x)]`. */
  function Filter<T>(p: T -> bool, s: seq<T>): seq<T> {
    if s == [] then [] else Filter(p, s[..|s| - 1]) + (if p(s[|s| - 1]) then [s[|s| - 1]] else [])
  }

  function Not<T>(p: T -> bool): T -> bool {
    x => !p(x)
  }

  /** One more element of a list being filtered. */
  lemma FilterNext<T>(p: T -> bool, s: seq<T>, i: nat)
    requires i < |s|
    ensures Filter(p, s[..i + 1]) == Filter(p, s[..i]) + (if p(s[i]) then [s[i]] else [])
  {
    assert s[..i + 1][..i] == s[..i];
  }

  lemma {:induction false} FilterMembers<T>(p: T -> bool, s: seq<T>)
    ensures forall x :: x in Filter(p, s) <==> x in s && p(x)
  {
    if s != [] {
      FilterMembers(p, s[..|s| - 1]);
      assert s == s[..|s| - 1] + [s[|s| - 1]];
    }
  }

  lemma SnocMultiset<T>(s: seq<T>, x: T)
    ensures multiset(s + [x]) == multiset(s) + multiset{x} && |s + [x]| == |s| + 1
  {
  }

  /** A condition and its negation split a list. */
  lemma {:induction false} FilterSplits<T>(p: T -> bool, s: seq<T>)
    ensures multiset(Filter(p, s)) + multiset(Filter(Not(p), s)) == multiset(s)
    ensures |Filter(p, s)| + |Filter(Not(p), s)| == |s|
  {
    if s != [] {
      var init, last := s[..|s| - 1], s[|s| - 1];
      FilterSplits(p, init);
      assert s == init + [last];
      assert Filter(p, s) == if p(last) then Filter(p, init) + [last] else Filter(p, init);
      assert Filter(Not(p), s) == if p(last) then Filter(Not(p), init) else Filter(Not(p), init) + [last];
      SplitNext(Filter(p, init), Filter(Not(p), init), init, last);
    }
  }

  /** One more element goes to one side of a split. */
  lemma SplitNext<T>(a: seq<T>, b: seq<T>, s: seq<T>, x: T)
    requires multiset(a) + multiset(b) == multiset(s)
    ensures multiset(a + [x]) + multiset(b) == multiset(s + [x]) == multiset(a) + multiset(b + [x])
  {
    SnocMultiset(s, x);
    SnocMultiset(a, x);
    SnocMultiset(b, x);
  }

  /** The first element that passes. */
  lemma {:induction false} FilterFirst<T>(p: T -> bool, s: seq<T>) returns (k: nat)
    requires Filter(p, s) != []
    ensures k < |s| && p(s[k]) && s[k] == Filter(p, s)[0] && forall j :: 0 <= j < k ==> !p(s[j])
  {
    var n := |s| - 1;
    if Filter(p, s[..n]) != [] {
      k := FilterFirst(p, s[..n]);
    } else {
      k := n;
      FilterMembers(p, s[..n]);
      forall j | 0 <= j < n ensures !p(s[j]) {
        assert s[..n][j] == s[j] && s[j] in s[..n];
      }
    }
  }

  /** Filtering twice is filtering by both. */
  lemma {:induction false} FilterTwice<T>(p: T -> bool, q: T -> bool, both: T -> bool, s: seq<T>)
    requires forall i :: 0 <= i < |s| ==> (both(s[i]) <==> p(s[i]) && q(s[i]))
    ensures Filter(q, Filter(p, s)) == Filter(both, s)
  {
    if s != [] {
      var n := |s| - 1;
      FilterTwice(p, q, both, s[..n]);
      var r := Filter(p, s[..n]);
      assert (r + [s[n]])[..|r|] == r;
      assert Filter(p, s) == if p(s[n]) then r + [s[n]] else r;
    }
  }
}
