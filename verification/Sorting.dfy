/** Stable sorting, as `list.sort` and `sorted` do it. */
module Sorting {

  function Insert<T>(less: (T, T) -> bool, x: T, s: seq<T>): seq<T> {
    if s == [] then [x]
    else if less(s[0], x) then [s[0]] + Insert(less, x, s[1..])
    else [x] + s
  }

  /** `list.sort`: stable, by a strict comparison. */
  function Sort<T>(less: (T, T) -> bool, s: seq<T>): seq<T> {
    if s == [] then [] else Insert(less, s[0], Sort(less, s[1..]))
  }

  /** On `dom`, `less` orders and its failures chain. */
  ghost predicate Weak<T>(less: (T, T) -> bool, dom: set<T>) {
    && (forall x, y :: x in dom && y in dom && less(x, y) ==> !less(y, x))
    && (forall x, y, z :: x in dom && y in dom && z in dom && less(x, z) ==> less(x, y) || less(y, z))
  }

  ghost predicate Within<T>(s: seq<T>, dom: set<T>) {
    forall k :: 0 <= k < |s| ==> s[k] in dom
  }

  ghost predicate Ascending<T>(less: (T, T) -> bool, s: seq<T>) {
    forall a, b :: 0 <= a < b < |s| ==> !less(s[b], s[a])
  }

  lemma {:induction false} InsertPerm<T>(less: (T, T) -> bool, x: T, s: seq<T>)
    ensures multiset(Insert(less, x, s)) == multiset{x} + multiset(s)
  {
    if s != [] {
      assert s == [s[0]] + s[1..];
      if less(s[0], x) {
        InsertPerm(less, x, s[1..]);
      }
    }
  }

  lemma {:induction false} SortPerm<T>(less: (T, T) -> bool, s: seq<T>)
    ensures multiset(Sort(less, s)) == multiset(s) && |Sort(less, s)| == |s|
  {
    if s != [] {
      SortPerm(less, s[1..]);
      InsertPerm(less, s[0], Sort(less, s[1..]));
      assert s == [s[0]] + s[1..];
      assert |multiset(Sort(less, s))| == |multiset(s)|;
    }
  }

  lemma SamePermElements<T>(a: seq<T>, b: seq<T>)
    requires multiset(a) == multiset(b)
    ensures forall x :: x in a <==> x in b
    ensures |a| == |b|
  {
    assert |multiset(a)| == |multiset(b)|;
    forall x ensures x in a <==> x in b {
      assert x in a <==> x in multiset(a);
      assert x in b <==> x in multiset(b);
    }
  }

  // ------------------------------------------------------------------ taking one element out

  function Without<T>(s: seq<T>, m: nat): (r: seq<T>)
    requires m < |s|
    ensures |r| == |s| - 1 && forall k :: 0 <= k < |r| ==> r[k] == s[if k < m then k else k + 1]
  {
    s[..m] + s[m + 1..]
  }

  /** An element and what stands before and after it. */
  lemma SplitAt<T>(s: seq<T>, m: nat) returns (a: seq<T>, c: seq<T>)
    requires m < |s|
    ensures s == a + [s[m]] + c && Without(s, m) == a + c
  {
    a, c := s[..m], s[m + 1..];
  }

  lemma WithoutFirst<T>(s: seq<T>)
    requires s != []
    ensures Without(s, 0) == s[1..]
  {
  }

  /** The next longer prefix. */
  lemma PrefixNext<T>(s: seq<T>, n: nat)
    requires n < |s|
    ensures s[..n + 1] == s[..n] + [s[n]]
  {
  }

  lemma RemoveAt<T>(s: seq<T>, m: nat)
    requires m < |s|
    ensures multiset(Without(s, m)) == multiset(s) - multiset{s[m]}
  {
    assert s == s[..m] + [s[m]] + s[m + 1..];
  }

  /** Taking the same element out of two lists, or putting it back. */
  lemma RemoveBoth<T>(a: seq<T>, b: seq<T>, m: nat)
    requires a != [] && m < |b| && b[m] == a[0]
    ensures multiset(a) == multiset(b) <==> multiset(a[1..]) == multiset(Without(b, m))
  {
    RemoveAt(b, m);
    assert a == [a[0]] + a[1..];
    assert multiset(a[1..]) == multiset(a) - multiset{a[0]};
    assert multiset(b) == multiset(Without(b, m)) + multiset{b[m]};
  }

  // ------------------------------------------------------------------ order

  lemma {:induction false} InsertWithin<T>(less: (T, T) -> bool, x: T, s: seq<T>, dom: set<T>)
    requires x in dom && Within(s, dom)
    ensures Within(Insert(less, x, s), dom)
  {
    if s != [] && less(s[0], x) {
      InsertWithin(less, x, s[1..], dom);
    }
  }

  /** Nothing in `s` is below `y`. */
  ghost predicate Above<T>(less: (T, T) -> bool, y: T, s: seq<T>) {
    forall b :: 0 <= b < |s| ==> !less(s[b], y)
  }

  lemma {:induction false} InsertAbove<T>(less: (T, T) -> bool, x: T, s: seq<T>, y: T)
    requires Above(less, y, s) && !less(x, y)
    ensures Above(less, y, Insert(less, x, s))
  {
    if s != [] && less(s[0], x) {
      assert Above(less, y, s[1..]);
      InsertAbove(less, x, s[1..], y);
    }
  }

  lemma {:induction false} InsertAscends<T>(less: (T, T) -> bool, x: T, s: seq<T>, dom: set<T>)
    requires Ascending(less, s) && Weak(less, dom) && x in dom && Within(s, dom)
    ensures Ascending(less, Insert(less, x, s))
  {
    if s != [] {
      if less(s[0], x) {
        InsertAscends(less, x, s[1..], dom);
        InsertAbove(less, x, s[1..], s[0]);
      } else {
        forall b | 0 <= b < |s| ensures !less(s[b], x) {
          assert b > 0 ==> !less(s[b], s[0]);
        }
      }
    }
  }

  lemma {:induction false} SortAscends<T>(less: (T, T) -> bool, s: seq<T>, dom: set<T>)
    requires Weak(less, dom) && Within(s, dom)
    ensures Ascending(less, Sort(less, s)) && Within(Sort(less, s), dom)
  {
    if s != [] {
      SortAscends(less, s[1..], dom);
      InsertAscends(less, s[0], Sort(less, s[1..]), dom);
      InsertWithin(less, s[0], Sort(less, s[1..]), dom);
    }
  }

  lemma FirstIsLeast<T>(less: (T, T) -> bool, a: seq<T>, b: seq<T>)
    requires multiset(a) == multiset(b) && a != [] && Ascending(less, a) && Ascending(less, b)
    ensures b != [] && (a[0] == b[0] || (!less(a[0], b[0]) && !less(b[0], a[0]))) && b[0] in a
  {
    SamePermElements(a, b);
    assert a[0] in a && b[0] in b;
    var m :| 0 <= m < |b| && b[m] == a[0];
    var k :| 0 <= k < |a| && a[k] == b[0];
  }

  lemma TailPerm<T>(a: seq<T>, b: seq<T>)
    requires multiset(a) == multiset(b) && a != [] && b != [] && a[0] == b[0]
    ensures multiset(a[1..]) == multiset(b[1..])
  {
    assert a == [a[0]] + a[1..] && b == [b[0]] + b[1..];
    assert multiset(a[1..]) == multiset(a) - multiset{a[0]};
    assert multiset(b[1..]) == multiset(b) - multiset{b[0]};
  }

  /** A permutation ordered by keys that tell its elements apart is unique. */
  lemma {:induction false} SortedIsUnique<T>(less: (T, T) -> bool, a: seq<T>, b: seq<T>)
    requires multiset(a) == multiset(b) && Ascending(less, a) && Ascending(less, b)
    requires forall x, y :: x in a && y in a && !less(x, y) && !less(y, x) ==> x == y
    ensures a == b
  {
    SamePermElements(a, b);
    if a != [] {
      FirstIsLeast(less, a, b);
      assert a[0] == b[0];
      TailPerm(a, b);
      assert forall x :: x in a[1..] ==> x in a;
      SortedIsUnique(less, a[1..], b[1..]);
      assert a == [a[0]] + a[1..] && b == [b[0]] + b[1..];
    }
  }

  // ------------------------------------------------------------------ stability

  /** Sorted, and elements the order does not separate stand as `tie` says. */
  ghost predicate Stable<T>(less: (T, T) -> bool, tie: (T, T) -> bool, s: seq<T>) {
    forall a, b :: 0 <= a < b < |s| ==> less(s[a], s[b]) || (!less(s[b], s[a]) && tie(s[a], s[b]))
  }

  lemma {:induction false} InsertStable<T>(less: (T, T) -> bool, tie: (T, T) -> bool, x: T, s: seq<T>, dom: set<T>)
    requires Weak(less, dom) && x in dom && Within(s, dom)
    requires Stable(less, tie, s) && forall k :: 0 <= k < |s| ==> tie(x, s[k])
    ensures Stable(less, tie, Insert(less, x, s))
  {
    if s != [] {
      var r := Insert(less, x, s);
      if less(s[0], x) {
        InsertStable(less, tie, x, s[1..], dom);
        InsertPerm(less, x, s[1..]);
        forall b | 1 <= b < |r| ensures less(r[0], r[b]) || (!less(r[b], r[0]) && tie(r[0], r[b])) {
          InsertElement(less, x, s[1..], b - 1);
        }
      } else {
        forall b | 0 <= b < |s| ensures !less(s[b], x) {
          assert b > 0 ==> !less(s[b], s[0]);
        }
      }
    }
  }

  /** Every element of an insertion is the new one or an old one. */
  lemma {:induction false} InsertElement<T>(less: (T, T) -> bool, x: T, s: seq<T>, b: nat)
    requires b < |Insert(less, x, s)|
    ensures Insert(less, x, s)[b] == x || exists k :: 0 <= k < |s| && Insert(less, x, s)[b] == s[k]
  {
    if s != [] {
      if less(s[0], x) {
        if b > 0 {
          InsertElement(less, x, s[1..], b - 1);
        }
      } else {
        assert b > 0 ==> Insert(less, x, s)[b] == s[b - 1];
      }
    }
  }

  lemma {:induction false} SortElement<T>(less: (T, T) -> bool, s: seq<T>, k: nat)
    requires k < |Sort(less, s)|
    ensures exists i :: 0 <= i < |s| && Sort(less, s)[k] == s[i]
  {
    var r := Sort(less, s);
    SortPerm(less, s);
    var x := r[k];
    assert x in multiset(r);
    assert x in s;
  }

  /** `list.sort` keeps the input order of elements it does not separate. */
  lemma {:induction false} SortIsStable<T>(less: (T, T) -> bool, tie: (T, T) -> bool, s: seq<T>, dom: set<T>)
    requires Weak(less, dom) && Within(s, dom)
    requires forall a, b :: 0 <= a < b < |s| ==> tie(s[a], s[b])
    ensures Stable(less, tie, Sort(less, s))
  {
    if s != [] {
      SortIsStable(less, tie, s[1..], dom);
      SortAscends(less, s[1..], dom);
      forall k | 0 <= k < |Sort(less, s[1..])| ensures tie(s[0], Sort(less, s[1..])[k]) {
        SortElement(less, s[1..], k);
      }
      InsertStable(less, tie, s[0], Sort(less, s[1..]), dom);
    }
  }
}
