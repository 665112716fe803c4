/** Python's order of strings, and how service names are displayed. */
module Strings {

  /** By code point, a prefix first. */
  predicate StringLess(a: string, b: string) {
    if b == "" then false
    else if a == "" then true
    else a[0] < b[0] || (a[0] == b[0] && StringLess(a[1..], b[1..]))
  }

  lemma {:induction false} StringOrder(a: string, b: string)
    ensures !StringLess(a, a)
    ensures !(StringLess(a, b) && StringLess(b, a))
    ensures StringLess(a, b) || StringLess(b, a) || a == b
  {
    if a != "" {
      StringOrder(a[1..], if b == "" then "" else b[1..]);
    }
    if a != "" && b != "" && a[0] == b[0] && a[1..] == b[1..] {
      assert a == [a[0]] + a[1..] && b == [b[0]] + b[1..];
    }
  }

  lemma {:induction false} StringChain(a: string, b: string, c: string)
    requires StringLess(a, c)
    ensures StringLess(a, b) || StringLess(b, c)
  {
    if a != "" && b != "" && a[0] == b[0] == c[0] {
      StringChain(a[1..], b[1..], c[1..]);
    }
  }

  /** `a` is a proper prefix of `b`, or is smaller at the first place where they differ. */
  ghost predicate Alphabetical(a: string, b: string) {
    (|a| < |b| && b[..|a|] == a) || exists k :: 0 <= k < |a| && k < |b| && a[..k] == b[..k] && a[k] < b[k]
  }

  lemma {:induction false} StringLessMeans(a: string, b: string)
    ensures StringLess(a, b) <==> Alphabetical(a, b)
  {
    if a != "" && b != "" {
      StringLessMeans(a[1..], b[1..]);
      if a[0] == b[0] {
        AlphabeticalHead(a, b);
      } else if a[0] < b[0] {
        assert a[..0] == b[..0];
      }
    }
  }

  /** A common first character does not matter. */
  lemma AlphabeticalHead(a: string, b: string)
    requires a != "" && b != "" && a[0] == b[0]
    ensures Alphabetical(a, b) <==> Alphabetical(a[1..], b[1..])
  {
    var c, d := a[1..], b[1..];
    assert a == [a[0]] + c && b == [b[0]] + d;
    if |a| < |b| && b[..|a|] == a {
      assert d[..|c|] == b[..|a|][1..];
    }
    if |c| < |d| && d[..|c|] == c {
      assert b[..|a|] == [b[0]] + d[..|c|];
    }
    forall k | 0 < k <= |c| && k <= |d| ensures a[..k] == b[..k] <==> c[..k - 1] == d[..k - 1] {
      assert a[..k] == [a[0]] + c[..k - 1] && b[..k] == [b[0]] + d[..k - 1];
      assert a[..k][1..] == c[..k - 1] && b[..k][1..] == d[..k - 1];
    }
    if k :| 0 <= k < |a| && k < |b| && a[..k] == b[..k] && a[k] < b[k] {
      assert c[..k - 1] == d[..k - 1] && c[k - 1] < d[k - 1];
    }
    if k :| 0 <= k < |c| && k < |d| && c[..k] == d[..k] && c[k] < d[k] {
      assert a[..k + 1] == b[..k + 1] && a[k + 1] < b[k + 1];
    }
  }

  function Shown(service: string): string {
    if service == "" then "?" else service
  }
}
