/** Selection and time conversion together: the time order of the arrays that are sent. */
module PayloadOrder {
  import opened Wrappers
  import opened Sorting
  import opened PyDict
  import opened Signals
  import opened RoundRobin
  import opened SignalSelector
  import opened SelectorTheorems
  import opened SelectionTheorems
  import opened SelectionPriority
  import SpringTime

  // ------------------------------------------------------------------ what is kept comes from the input

  ghost predicate Below(bucket: seq<Entry>, n: nat) {
    forall i :: 0 <= i < |bucket| ==> bucket[i].idx < n
  }

  ghost predicate AllBelow(buckets: seq<seq<Entry>>, n: nat) {
    forall j :: 0 <= j < |buckets| ==> Below(buckets[j], n)
  }

  lemma PartitionBelow(buckets: seq<seq<Entry>>, n: nat)
    requires NoneEmpty(buckets) && Partition(buckets, n)
    ensures AllBelow(buckets, n)
  {
    forall j, i | 0 <= j < |buckets| && 0 <= i < |buckets[j]| ensures buckets[j][i].idx < n {
      EntryInRange(buckets, n, j, buckets[j][i]);
    }
  }

  lemma ReplacedBelow(vals: seq<seq<Entry>>, u: seq<Entry>, i: nat, n: nat)
    requires AllBelow(vals + [u], n)
    ensures AllBelow(vals, n) && Below(u, n) && (i < |vals| ==> AllBelow(vals[i := u], n))
  {
    assert (vals + [u])[|vals|] == u;
    forall j | 0 <= j < |vals| ensures Below(vals[j], n) {
      assert (vals + [u])[j] == vals[j];
    }
  }

  /** A metric batch's series and its unparsed items hold input indices only. */
  lemma {:induction false} SeriesBelow(items: seq<MetricItem>, trigger: Option<Stamp>)
    requires Unparsed(items, |items|) != []
    ensures AllBelow(GradeAll(SeriesOf(items, trigger).vals) + [Unparsed(items, |items|)], |items|)
  {
    var vals := GradeAll(SeriesOf(items, trigger).vals);
    GradedIndices(items, trigger);
    GradedNonEmpty(items, trigger);
    IndicesSnoc(vals, Unparsed(items, |items|));
    PartitionBelow(vals + [Unparsed(items, |items|)], |items|);
  }

  /** Even where a series is overwritten, the buckets hold input indices only. */
  lemma BucketsBelow(b: Batch)
    requires WellFormed(b)
    ensures NoneEmpty(BucketSpec(b)) && AllBelow(BucketSpec(b), |Times(b)|)
  {
    BatchPartition(b);
    if Faithful(b) {
      PartitionBelow(BucketSpec(b), |Times(b)|);
    } else {
      OverwrittenBelow(b.metrics, b.trigger);
    }
  }

  lemma OverwrittenBelow(items: seq<MetricItem>, trigger: Option<Stamp>)
    requires NameClash(items)
    ensures AllBelow(MetricSpec(items, trigger), |items|)
  {
    var d := SeriesOf(items, trigger);
    UnparsedEmpty(items, |items|);
    GradeAllLength(d.vals);
    SeriesBelow(items, trigger);
    ReplacedBelow(GradeAll(d.vals), Unparsed(items, |items|), Find(d.keys, UNPARSED), |items|);
  }

  lemma IdsBelow(bucket: seq<Entry>, n: nat, d: nat)
    requires bucket != [] && Below(bucket, n) && d < |RankingOf(bucket).ids|
    ensures RankingOf(bucket).ids[d] < n
  {
    var s := Sort(EntryLess, bucket);
    SortPerm(EntryLess, bucket);
    SamePermElements(s, bucket);
    assert s[d] in bucket;
  }

  /** For every batch, clash or not, the selection consists of input indices. */
  lemma KeptInRange(b: Batch, cap: int)
    requires WellFormed(b)
    ensures forall k :: 0 <= k < |Result(b, cap)| ==> Result(b, cap)[k] < |Times(b)|
  {
    BucketsBelow(b);
    var buckets := BucketSpec(b);
    var n := |Times(b)|;
    if n > cap {
      KeptMembers(buckets, Times(b), cap);
      forall k | 0 <= k < |Result(b, cap)| ensures Result(b, cap)[k] < n {
        assert Result(b, cap)[k] in Result(b, cap);
        PickedBelow(buckets, n, cap, Result(b, cap)[k]);
      }
    }
  }

  lemma PickedBelow(buckets: seq<seq<Entry>>, n: nat, cap: int, x: nat)
    requires NoneEmpty(buckets) && AllBelow(buckets, n) && x in Picked(buckets, cap)
    ensures x < n
  {
    var groups := OrderedSpec(buckets);
    OrderIsTheEnumeration(groups, []);
    var k :| 0 <= k < |Picked(buckets, cap)| && Picked(buckets, cap)[k] == x;
    var p := Picks(groups, cap)[k];
    assert p == Order(groups, 0)[k] && Valid(groups, p);
    var j := BucketOfGroup(buckets, p.1);
    IdsBelow(buckets[j], n, p.0);
  }

  // ------------------------------------------------------------------ the array that is sent

  /** The batch's times are those of the texts, as the selector reads them. */
  predicate StampedBy(parse: SpringTime.Parser, b: Batch, texts: seq<string>) {
    |texts| == |Stamps(b)| && forall i :: 0 <= i < |texts| ==> Stamps(b)[i] == SpringTime.StampOf(parse, texts[i])
  }

  /** The time fields of the selected items. */
  ghost function SentTexts(b: Batch, texts: seq<string>, cap: int): (r: seq<string>)
    requires WellFormed(b) && |texts| == |Times(b)|
    ensures |r| == |Result(b, cap)|
  {
    KeptInRange(b, cap);
    seq(|Result(b, cap)|, k requires 0 <= k < |Result(b, cap)| => texts[Result(b, cap)[k]])
  }

  /** No later time before an earlier one. */
  ghost predicate InOrder(parse: SpringTime.Parser, texts: seq<string>) {
    forall a, b :: 0 <= a < b < |texts| ==> !Earlier(SpringTime.StampOf(parse, texts[b]), SpringTime.StampOf(parse, texts[a]))
  }

  lemma SelectedInOrder(parse: SpringTime.Parser, b: Batch, texts: seq<string>, cap: int)
    requires WellFormed(b) && StampedBy(parse, b, texts)
    ensures InOrder(parse, SentTexts(b, texts, cap)) <==> |texts| > cap || InOrder(parse, texts)
  {
    ChronologicalExactly(b, cap);
    KeptInRange(b, cap);
    BatchPartition(b);
    var kept := Result(b, cap);
    var sent := SentTexts(b, texts, cap);
    forall k | 0 <= k < |kept| ensures SpringTime.StampOf(parse, sent[k]) == Stamps(b)[kept[k]] {
      assert sent[k] == texts[kept[k]];
    }
    if |texts| <= cap {
      assert sent == texts;
    } else {
      AllInOrder(Stamps(b), kept);
    }
  }

  lemma AllInOrder(stamps: seq<Option<Stamp>>, kept: seq<nat>)
    requires InTimeOrder(stamps, kept) && forall k :: 0 <= k < |kept| ==> kept[k] < |stamps|
    ensures forall a, b :: 0 <= a < b < |kept| ==> !Earlier(stamps[kept[b]], stamps[kept[a]])
  {
  }

  /**
   The times that reach Spring: the selected items' time fields after conversion are nondecreasing exactly
   when the batch was over the cap or arrived in order.
   */
  lemma SentInOrderExactly(parse: SpringTime.Parser, b: Batch, texts: seq<string>, cap: int)
    requires WellFormed(b) && StampedBy(parse, b, texts) && SpringTime.Sendable(parse, SentTexts(b, texts, cap))
    ensures InOrder(parse, SpringTime.Converted(parse, SentTexts(b, texts, cap))) <==> |texts| > cap || InOrder(parse, texts)
  {
    SelectedInOrder(parse, b, texts, cap);
    var sent := SentTexts(b, texts, cap);
    var converted := SpringTime.Converted(parse, sent);
    forall x, y | 0 <= x < |sent| && 0 <= y < |sent|
      ensures Earlier(SpringTime.StampOf(parse, sent[x]), SpringTime.StampOf(parse, sent[y])) <==>
              Earlier(SpringTime.StampOf(parse, converted[x]), SpringTime.StampOf(parse, converted[y]))
    {
      SpringTime.ConvertedKeepsOrder(parse, sent, x, y);
    }
  }
}
