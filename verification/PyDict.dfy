/** Python dictionaries of lists, in insertion order, as `defaultdict(list)` builds them. */
module PyDict {
  import opened Wrappers

  datatype Dict<K(==), E> = Dict(keys: seq<K>, vals: seq<seq<E>>)

  function Find<K(==)>(keys: seq<K>, k: K): (i: nat)
    ensures i <= |keys| && (i < |keys| ==> keys[i] == k) && (forall j :: 0 <= j < i ==> keys[j] != k)
    ensures i == |keys| <==> k !in keys
  {
    if keys == [] then 0 else if keys[0] == k then 0
    else
      assert forall j :: 1 <= j < |keys| ==> keys[j] == keys[1..][j - 1];
      1 + Find(keys[1..], k)
  }

  /** `d[k].append(e)`. */
  function Append<K(==), E>(d: Dict<K, E>, k: K, e: E): Dict<K, E>
    requires |d.keys| == |d.vals|
  {
    var i := Find(d.keys, k);
    if i < |d.keys| then Dict(d.keys, d.vals[i := d.vals[i] + [e]]) else Dict(d.keys + [k], d.vals + [[e]])
  }

  /** Group the first `n` elements by key; elements without a key are skipped. */
  function Group<K(==), E>(ks: seq<Option<K>>, es: seq<E>, n: nat): (d: Dict<K, E>)
    requires n <= |ks| == |es|
    ensures |d.keys| == |d.vals|
  {
    if n == 0 then Dict([], [])
    else if ks[n - 1].None? then Group(ks, es, n - 1)
    else Append(Group(ks, es, n - 1), ks[n - 1].value, es[n - 1])
  }

  /** The elements among the first `n` whose key is `k`, in order. */
  function Under<K(==), E>(ks: seq<Option<K>>, es: seq<E>, k: K, n: nat): seq<E>
    requires n <= |ks| == |es|
  {
    if n == 0 then []
    else if ks[n - 1] == Some(k) then Under(ks, es, k, n - 1) + [es[n - 1]]
    else Under(ks, es, k, n - 1)
  }

  /** The elements among the first `n` that have a key. */
  function Keyed<K, E>(ks: seq<Option<K>>, es: seq<E>, n: nat): seq<E>
    requires n <= |ks| == |es|
  {
    if n == 0 then [] else if ks[n - 1].None? then Keyed(ks, es, n - 1) else Keyed(ks, es, n - 1) + [es[n - 1]]
  }

  function Concat<E>(ss: seq<seq<E>>): seq<E> {
    if ss == [] then [] else ss[0] + Concat(ss[1..])
  }

  ghost predicate Distinct<K>(s: seq<K>) {
    forall a, b :: 0 <= a < b < |s| ==> s[a] != s[b]
  }

  /** Each list holds exactly the elements of its key, and no list is empty. */
  ghost predicate Lists<K, E>(ks: seq<Option<K>>, es: seq<E>, n: nat, d: Dict<K, E>)
    requires n <= |ks| == |es| && |d.keys| == |d.vals|
  {
    && Distinct(d.keys)
    && (forall j :: 0 <= j < |d.keys| ==> d.vals[j] == Under(ks, es, d.keys[j], n) && d.vals[j] != [])
    && (forall i :: 0 <= i < n && ks[i].Some? ==> ks[i].value in d.keys)
  }

  lemma AppendLists<K, E>(ks: seq<Option<K>>, es: seq<E>, n: nat, c: Dict<K, E>)
    requires 0 < n <= |ks| == |es| && |c.keys| == |c.vals| && Lists(ks, es, n - 1, c) && ks[n - 1].Some?
    requires ks[n - 1].value !in c.keys ==> Under(ks, es, ks[n - 1].value, n - 1) == []
    ensures Lists(ks, es, n, Append(c, ks[n - 1].value, es[n - 1]))
  {
    var k := ks[n - 1].value;
    var d := Append(c, k, es[n - 1]);
    var i := Find(c.keys, k);
    forall j | 0 <= j < |d.keys| ensures d.vals[j] == Under(ks, es, d.keys[j], n) && d.vals[j] != [] {
      if j < |c.keys| && j != i {
        assert d.keys[j] != k;
      }
    }
    forall m | 0 <= m < n && ks[m].Some? ensures ks[m].value in d.keys {
      if m < n - 1 {
        var p :| 0 <= p < |c.keys| && c.keys[p] == ks[m].value;
        assert d.keys[p] == ks[m].value;
      } else {
        assert d.keys[i] == k;
      }
    }
  }

  lemma {:induction false} GroupLists<K, E>(ks: seq<Option<K>>, es: seq<E>, n: nat)
    requires n <= |ks| == |es|
    ensures Lists(ks, es, n, Group(ks, es, n))
  {
    if n > 0 {
      GroupLists(ks, es, n - 1);
      var c := Group(ks, es, n - 1);
      if ks[n - 1].Some? {
        if ks[n - 1].value !in c.keys {
          UnderAbsent(ks, es, ks[n - 1].value, n - 1);
        }
        AppendLists(ks, es, n, c);
      }
    }
  }

  lemma {:induction false} UnderAbsent<K, E>(ks: seq<Option<K>>, es: seq<E>, k: K, n: nat)
    requires n <= |ks| == |es| && forall i :: 0 <= i < n ==> ks[i] != Some(k)
    ensures Under(ks, es, k, n) == []
  {
    if n > 0 {
      UnderAbsent(ks, es, k, n - 1);
    }
  }

  lemma {:induction false} UnderMembers<K, E>(ks: seq<Option<K>>, es: seq<E>, k: K, n: nat, e: E)
    requires n <= |ks| == |es|
    ensures e in Under(ks, es, k, n) <==> exists i :: 0 <= i < n && ks[i] == Some(k) && es[i] == e
  {
    if n > 0 {
      UnderMembers(ks, es, k, n - 1, e);
    }
  }

  /** Where the list of a key is, and what it holds. */
  lemma ListOf<K, E>(ks: seq<Option<K>>, es: seq<E>, k: K, i: nat) returns (j: nat)
    requires i < |ks| == |es| && ks[i] == Some(k)
    ensures var d := Group(ks, es, |ks|);
      j < |d.keys| && d.keys[j] == k && d.vals[j] == Under(ks, es, k, |ks|) && es[i] in d.vals[j]
  {
    GroupLists(ks, es, |ks|);
    UnderMembers(ks, es, k, |ks|, es[i]);
    j := Find(Group(ks, es, |ks|).keys, k);
  }

  lemma {:induction false} ConcatSnoc<E>(ss: seq<seq<E>>, s: seq<E>)
    ensures Concat(ss + [s]) == Concat(ss) + s
  {
    if ss == [] {
      assert [s][1..] == [];
    } else {
      ConcatSnoc(ss[1..], s);
      assert (ss + [s])[1..] == ss[1..] + [s];
    }
  }

  lemma {:induction false} ConcatExtend<E>(ss: seq<seq<E>>, i: nat, e: E)
    requires i < |ss|
    ensures multiset(Concat(ss[i := ss[i] + [e]])) == multiset(Concat(ss)) + multiset{e}
  {
    var t := ss[i := ss[i] + [e]];
    if i == 0 {
      assert t[1..] == ss[1..];
    } else {
      ConcatExtend(ss[1..], i - 1, e);
      assert t[1..] == ss[1..][i - 1 := ss[1..][i - 1] + [e]];
    }
  }

  /** Grouping loses and invents nothing. */
  lemma {:induction false} GroupConserves<K, E>(ks: seq<Option<K>>, es: seq<E>, n: nat)
    requires n <= |ks| == |es|
    ensures multiset(Concat(Group(ks, es, n).vals)) == multiset(Keyed(ks, es, n))
  {
    if n > 0 {
      GroupConserves(ks, es, n - 1);
      if ks[n - 1].Some? {
        AppendConserves(Group(ks, es, n - 1), ks[n - 1].value, es[n - 1]);
      }
    }
  }

  lemma AppendConserves<K, E>(d: Dict<K, E>, k: K, e: E)
    requires |d.keys| == |d.vals|
    ensures multiset(Concat(Append(d, k, e).vals)) == multiset(Concat(d.vals)) + multiset{e}
  {
    var i := Find(d.keys, k);
    if i < |d.keys| {
      ConcatExtend(d.vals, i, e);
    } else {
      ConcatSnoc(d.vals, [e]);
    }
  }
}
