/** The job table as the services update it: recovery, finalisation and purging. */
module JobRows {
  import opened JobProtocol
  import opened ProtocolInvariant
  import opened ProtocolRecovery

  class JobTable {
    var rows: map<JobId, Row>

    constructor ()
      ensures rows == map[]
    {
      rows := map[];
    }

    /** `_recover_running` inside its session: what the query returned is requeued or failed, one row at a time. */
    method RecoverRunning(claims: seq<Claim>, max: nat, now: int) returns (toEnqueue: seq<JobId>, toFail: seq<Claim>)
      requires DistinctJobs(claims) && forall k :: 0 <= k < |claims| ==> claims[k].job in rows
      modifies this
      ensures rows == RecoverRows(old(rows), claims, max, now)
      ensures toEnqueue == ToEnqueue(claims, max) && toFail == ToFail(claims, max)
    {
      toEnqueue, toFail := [], [];
      ghost var before := rows;
      for i := 0 to |claims|
        invariant Halfway(before, rows, claims, i, max, now)
        invariant toEnqueue == ToEnqueue(claims[..i], max) && toFail == ToFail(claims[..i], max)
      {
        var cl := claims[i];
        ListsNext(claims, i, max);
        HalfwayNext(before, rows, claims, i, max, now);
        if cl.requeues < max {
          rows := rows[cl.job := rows[cl.job].(status := Pending, requeues := cl.requeues + 1, updated := now)];
          toEnqueue := toEnqueue + [cl.job];
        } else {
          rows := rows[cl.job := rows[cl.job].(status := Failed, updated := now)];
          toFail := toFail + [cl];
        }
      }
      assert claims[..|claims|] == claims;
      HalfwayDone(before, rows, claims, max, now);
    }

    /** `_mark_done` and `_mark_failed`; the answer says whether this call moved the row. */
    method Mark(j: JobId, ok: bool, now: int) returns (moved: bool)
      modifies this
      ensures rows == MarkRows(old(rows), j, ok, now)
      ensures moved <==> j in old(rows) && old(rows)[j].status.Delivering?
    {
      if j !in rows || !rows[j].status.Delivering? {
        return false;
      }
      rows := rows[j := rows[j].(status := if ok then Done else Failed, updated := now)];
      return true;
    }

    /** `purge_once`: an unfinished row stays however old it is, a finished one until the cutoff. */
    method Purge(cutoff: int) returns (deleted: nat)
      modifies this
      ensures forall j :: j in rows <==> j in old(rows) && (Active(old(rows)[j]) || old(rows)[j].updated >= cutoff)
      ensures forall j :: j in rows ==> rows[j] == old(rows)[j]
      ensures |rows| + deleted == |old(rows)|
    {
      var expired := Expired(rows, cutoff);
      deleted := |expired|;
      RemovedAreCounted(rows, expired);
      rows := rows - expired;
    }
  }

  lemma RemovedAreCounted(rows: map<JobId, Row>, gone: set<JobId>)
    requires gone <= rows.Keys
    ensures |rows - gone| + |gone| == |rows|
  {
    assert (rows - gone).Keys == rows.Keys - gone;
  }

  /** The first `i` claims are applied, the others are as before. */
  ghost predicate Halfway(before: map<JobId, Row>, rows: map<JobId, Row>, claims: seq<Claim>, i: nat, max: nat, now: int)
    requires i <= |claims| && forall k :: 0 <= k < |claims| ==> claims[k].job in before
  {
    && rows.Keys == before.Keys
    && (forall k :: 0 <= k < i ==> rows[claims[k].job] == RecoverRow(before[claims[k].job], claims[k], max, now))
    && (forall j :: j in before && (forall k :: 0 <= k < i ==> claims[k].job != j) ==> rows[j] == before[j])
  }

  lemma HalfwayNext(before: map<JobId, Row>, rows: map<JobId, Row>, claims: seq<Claim>, i: nat, max: nat, now: int)
    requires i < |claims| && DistinctJobs(claims) && forall k :: 0 <= k < |claims| ==> claims[k].job in before
    requires Halfway(before, rows, claims, i, max, now)
    ensures rows[claims[i].job] == before[claims[i].job]
    ensures Halfway(before, rows[claims[i].job := RecoverRow(before[claims[i].job], claims[i], max, now)], claims, i + 1, max, now)
  {
    forall k | 0 <= k < i ensures claims[k].job != claims[i].job {
      assert Jobs(claims)[k] != Jobs(claims)[i];
    }
  }

  lemma {:induction false} HalfwayDone(before: map<JobId, Row>, rows: map<JobId, Row>, claims: seq<Claim>, max: nat, now: int)
    requires DistinctJobs(claims) && forall k :: 0 <= k < |claims| ==> claims[k].job in before
    requires Halfway(before, rows, claims, |claims|, max, now)
    ensures rows == RecoverRows(before, claims, max, now)
  {
    RecoverRowsAt(before, claims, max, now);
    var t := RecoverRows(before, claims, max, now);
    forall j | j in before ensures rows[j] == t[j] {
      if j in Jobs(claims) {
        var k :| 0 <= k < |Jobs(claims)| && Jobs(claims)[k] == j;
        assert claims[k].job == j;
      } else {
        forall k | 0 <= k < |claims| ensures claims[k].job != j {
          assert Jobs(claims)[k] == claims[k].job;
        }
      }
    }
  }

  lemma {:induction false} ListsNext(claims: seq<Claim>, i: nat, max: nat)
    requires i < |claims|
    ensures ToEnqueue(claims[..i + 1], max) == ToEnqueue(claims[..i], max) + (if claims[i].requeues < max then [claims[i].job] else [])
    ensures ToFail(claims[..i + 1], max) == ToFail(claims[..i], max) + (if claims[i].requeues < max then [] else [claims[i]])
  {
    if i > 0 {
      ListsNext(claims[1..], i - 1, max);
      assert claims[..i + 1][1..] == claims[1..][..i] && claims[..i][1..] == claims[1..][..i - 1];
    } else {
      assert claims[..1][1..] == [] && claims[..0] == [];
    }
  }
}
