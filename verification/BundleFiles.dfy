/** The bundle store: writing, discarding and sweeping files, splitting and restoring bundles. */
module BundleFiles {
  import opened Wrappers
  import opened JobProtocol

  /** The files a sweep may remove: unused and older than the cutoff. */
  function Orphans(files: map<FileName, int>, keep: set<FileName>, cutoff: int): set<FileName> {
    set p | p in files && p !in keep && files[p] < cutoff
  }

  class BundleStore {
    var files: map<FileName, int>
    var next: FileName

    /** Names not handed out yet are unused. */
    ghost predicate Valid()
      reads this
    {
      forall p :: p in files ==> p < next
    }

    constructor ()
      ensures Valid() && files == map[]
    {
      files, next := map[], 0;
    }

    /** `_write_sync`: a new name, nothing else touched. */
    method Write(now: int) returns (name: FileName)
      requires Valid()
      modifies this
      ensures Valid() && name !in old(files) && files == old(files)[name := now]
    {
      name := next;
      files := files[name := now];
      next := next + 1;
    }

    /** `discard`: best effort; `fails` says the file system refused. */
    method Discard(name: FileName, fails: bool) returns (removed: bool)
      requires Valid()
      modifies this
      ensures Valid() && files == Discarded(old(files), name, !fails)
      ensures removed <==> !fails && name in old(files)
    {
      assert name !in files ==> files - {name} == files;
      if fails || name !in files {
        return false;
      }
      files := files - {name};
      return true;
    }

    /** `_sweep_sync` over a directory listing; `stubborn` names cannot be removed. */
    method Sweep(listing: seq<FileName>, keep: set<FileName>, cutoff: int, stubborn: set<FileName>) returns (removed: nat)
      requires Valid() && NoDup(listing) && forall p :: p in listing <==> p in files
      modifies this
      ensures Valid() && files == old(files) - (Orphans(old(files), keep, cutoff) - stubborn)
      ensures removed == |Orphans(old(files), keep, cutoff) - stubborn|
    {
      removed := 0;
      ghost var before := files;
      for i := 0 to |listing|
        invariant files == before - Swept(before, listing[..i], keep, cutoff, stubborn)
        invariant removed == |Swept(before, listing[..i], keep, cutoff, stubborn)| && next == old(next)
      {
        var p := listing[i];
        SweptNext(before, listing, i, keep, cutoff, stubborn);
        if p !in keep && files[p] < cutoff && p !in stubborn {
          files := files - {p};
          removed := removed + 1;
        }
      }
      SweptAll(before, listing, keep, cutoff, stubborn);
    }
  }

  /** What the sweep has removed after looking at the names in `seen`. */
  ghost function Swept(files: map<FileName, int>, seen: seq<FileName>, keep: set<FileName>, cutoff: int,
                       stubborn: set<FileName>): set<FileName> {
    set p | p in files && p in seen && p !in keep && files[p] < cutoff && p !in stubborn
  }

  /** One more name: its file is still there, and goes if it is unused, old and removable. */
  lemma SweptNext(files: map<FileName, int>, listing: seq<FileName>, i: nat, keep: set<FileName>, cutoff: int, stubborn: set<FileName>)
    requires i < |listing| && NoDup(listing) && listing[i] in files
    ensures var p := listing[i];
      var gone, next := Swept(files, listing[..i], keep, cutoff, stubborn), Swept(files, listing[..i + 1], keep, cutoff, stubborn);
      && p in files - gone
      && (if p !in keep && files[p] < cutoff && p !in stubborn then files - gone - {p} == files - next && |next| == |gone| + 1
          else next == gone)
  {
    var p := listing[i];
    var gone := Swept(files, listing[..i], keep, cutoff, stubborn);
    assert listing[..i + 1] == listing[..i] + [p];
    assert p !in listing[..i];
    if p !in keep && files[p] < cutoff && p !in stubborn {
      assert Swept(files, listing[..i + 1], keep, cutoff, stubborn) == gone + {p};
      assert files - gone - {p} == files - (gone + {p});
    }
  }

  lemma SweptAll(files: map<FileName, int>, listing: seq<FileName>, keep: set<FileName>, cutoff: int, stubborn: set<FileName>)
    requires forall p :: p in listing <==> p in files
    ensures Swept(files, listing[..|listing|], keep, cutoff, stubborn) == Orphans(files, keep, cutoff) - stubborn
  {
    assert listing[..|listing|] == listing;
  }

  // ------------------------------------------------------------------ splitting a bundle

  /** A JSON value as far as the split looks: `null`, an array, anything else with its truth value. */
  datatype Value = Null | Items(items: seq<int>) | Other(tag: int, truthy: bool)

  type Bundle = map<string, Value>

  const SIGNALS: set<string> := {"logs", "metrics", "traces"}

  /** Neither an array nor true: `or []` replaces it. */
  predicate Replaced(v: Value) {
    v.Null? || (v.Other? && !v.truthy)
  }

  /** `bundle.get(key) or []`; an empty array is replaced by an equal one. */
  function OrEmpty(b: Bundle, k: string): Value {
    if k !in b || Replaced(b[k]) then Items([]) else b[k]
  }

  function Light(b: Bundle): Bundle {
    map k | k in b && k !in SIGNALS :: b[k]
  }

  function Heavy(b: Bundle): Bundle {
    map k | k in SIGNALS :: OrEmpty(b, k)
  }

  /** `{**stored, **signals}`, or the row alone for jobs older than the split. */
  function Restored(stored: Bundle, signals: Option<Bundle>): Bundle {
    if signals.None? then stored else stored + signals.value
  }

  /** The bundle holds an array under `k`, or something else that counts as true. */
  predicate Kept(b: Bundle, k: string) {
    k in b && (b[k].Items? || (b[k].Other? && b[k].truthy))
  }

  /**
   Splitting and restoring gives the bundle back exactly when each of the three arrays is kept. The others come
   back empty, and no array stays in the row.
   */
  lemma SplitRoundTrip(b: Bundle)
    ensures Restored(Light(b), Some(Heavy(b))) == b <==> Kept(b, "logs") && Kept(b, "metrics") && Kept(b, "traces")
    ensures forall k :: k in Light(b) <==> k in b && k != "logs" && k != "metrics" && k != "traces"
    ensures forall k :: k in b && k !in SIGNALS ==> k in Light(b) && Restored(Light(b), Some(Heavy(b)))[k] == b[k]
    ensures forall k | k in SIGNALS :: Restored(Light(b), Some(Heavy(b)))[k] == if Kept(b, k) then b[k] else Items([])
  {
    var r := Restored(Light(b), Some(Heavy(b)));
    if r == b {
      forall k | k in SIGNALS ensures Kept(b, k) {
        assert k in r && r[k] == OrEmpty(b, k);
      }
    }
    if Kept(b, "logs") && Kept(b, "metrics") && Kept(b, "traces") {
      forall k | k in SIGNALS ensures Kept(b, k) {}
      forall k ensures k in r <==> k in b {}
      forall k | k in b ensures r[k] == b[k] {}
    }
  }

  /** Where row and file both have a key the file wins; a row without a file is the bundle itself. */
  lemma FileWins(stored: Bundle, signals: Bundle, k: string)
    ensures k in Restored(stored, Some(signals)) <==> k in stored || k in signals
    ensures k in signals ==> Restored(stored, Some(signals))[k] == signals[k]
    ensures k in stored && k !in signals ==> Restored(stored, Some(signals))[k] == stored[k]
    ensures Restored(stored, None) == stored
  {
  }

  /** A bundle whose logs are `null` comes back with an empty array. */
  lemma NullComesBackEmpty(b: Bundle)
    requires b == map["logs" := Null, "metrics" := Items([]), "traces" := Items([])]
    ensures Restored(Light(b), Some(Heavy(b))) == b["logs" := Items([])] != b
  {
    SplitRoundTrip(b);
    var r := Restored(Light(b), Some(Heavy(b)));
    forall k ensures k in r <==> k in b {}
    forall k | k in r ensures r[k] == b["logs" := Items([])][k] {}
  }
}
