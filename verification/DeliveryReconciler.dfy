/** Redelivery of DELIVERING jobs. */
module DeliveryReconciler {
  import opened Wrappers
  import opened JobProtocol
  import opened JobRows
  import opened BundleFiles

  /** What the reconciler read about one DELIVERING row. */
  datatype Overdue = Overdue(job: JobId, result: Option<Artefact>, path: FileName)

  /** Rows and files after one item, given Spring's answer. */
  function RowsAfter(rows: map<JobId, Row>, o: Overdue, resp: Response, now: int): map<JobId, Row> {
    if o.result.None? || Classify(resp).Retry? then rows else MarkRows(rows, o.job, Classify(resp).Accepted?, now)
  }

  predicate Moves(rows: map<JobId, Row>, o: Overdue, resp: Response) {
    o.result.Some? && !Classify(resp).Retry? && o.job in rows && rows[o.job].status.Delivering?
  }

  predicate Counts(rows: map<JobId, Row>, o: Overdue, resp: Response) {
    Moves(rows, o, resp) && Classify(resp).Accepted?
  }

  datatype Ledger = Ledger(rows: map<JobId, Row>, files: map<FileName, int>, delivered: nat)

  /** The first `n` items of `redeliver_once`. */
  function Redelivered(l: Ledger, pending: seq<Overdue>, resps: seq<Response>, now: int, n: nat): Ledger
    requires n <= |pending| == |resps|
  {
    if n == 0 then l
    else
      var m := Redelivered(l, pending, resps, now, n - 1);
      var o, resp := pending[n - 1], resps[n - 1];
      Ledger(RowsAfter(m.rows, o, resp, now), Discarded(m.files, o.path, Moves(m.rows, o, resp)),
             m.delivered + (if Counts(m.rows, o, resp) then 1 else 0))
  }

  /** `redeliver_once` over what the query returned, one answer of Spring for each item. */
  method RedeliverOnce(table: JobTable, store: BundleStore, pending: seq<Overdue>, resps: seq<Response>, now: int)
    returns (delivered: nat)
    requires store.Valid() && |pending| == |resps|
    modifies table, store
    ensures store.Valid()
    ensures Ledger(table.rows, store.files, delivered)
            == Redelivered(Ledger(old(table.rows), old(store.files), 0), pending, resps, now, |pending|)
  {
    delivered := 0;
    ghost var start := Ledger(table.rows, store.files, 0);
    for n := 0 to |pending|
      invariant store.Valid()
      invariant Ledger(table.rows, store.files, delivered) == Redelivered(start, pending, resps, now, n)
    {
      var o := pending[n];
      if o.result.None? {
        continue;
      }
      match Classify(resps[n])
      case Refused =>
        var moved := table.Mark(o.job, false, now);
        if moved {
          var _ := store.Discard(o.path, false);
        }
      case Retry =>
      case Accepted =>
        var moved := table.Mark(o.job, true, now);
        if moved {
          delivered := delivered + 1;
          var _ := store.Discard(o.path, false);
        }
    }
  }

  predicate IsDone(r: Row) {
    r.status.Done?
  }

  function DoneJobs(rows: map<JobId, Row>): set<JobId> {
    set j | j in rows && IsDone(rows[j])
  }

  lemma MarkedDone(rows: map<JobId, Row>, j: JobId, ok: bool, now: int)
    ensures DoneJobs(MarkRows(rows, j, ok, now)) ==
            if ok && j in rows && rows[j].status.Delivering? then DoneJobs(rows) + {j} else DoneJobs(rows)
  {
  }

  /** The number `redeliver_once` returns is the number of rows it moved to DONE. */
  lemma {:induction false} DeliveredCountsDone(l: Ledger, pending: seq<Overdue>, resps: seq<Response>, now: int, n: nat)
    requires n <= |pending| == |resps|
    ensures |DoneJobs(Redelivered(l, pending, resps, now, n).rows)| + l.delivered
            == |DoneJobs(l.rows)| + Redelivered(l, pending, resps, now, n).delivered
  {
    if n > 0 {
      DeliveredCountsDone(l, pending, resps, now, n - 1);
      var m := Redelivered(l, pending, resps, now, n - 1);
      var o := pending[n - 1];
      MarkedDone(m.rows, o.job, Classify(resps[n - 1]).Accepted?, now);
    }
  }

  /** Redelivery keeps the file of every row it leaves DELIVERING, and moves no other row. */
  lemma {:induction false} RedeliveryIsLocal(l: Ledger, pending: seq<Overdue>, resps: seq<Response>, now: int, n: nat, j: JobId)
    requires n <= |pending| == |resps| && j in l.rows
    requires forall k :: 0 <= k < |pending| ==> pending[k].job in l.rows && pending[k].path == l.rows[pending[k].job].path
    requires forall a, b :: a in l.rows && b in l.rows && a != b ==> l.rows[a].path != l.rows[b].path
    ensures var m := Redelivered(l, pending, resps, now, n);
      && m.rows.Keys == l.rows.Keys && m.rows[j].path == l.rows[j].path
      && (m.rows[j] == l.rows[j] || (l.rows[j].status.Delivering? && Terminal(m.rows[j])))
      && (m.rows[j] == l.rows[j] && l.rows[j].path in l.files ==> l.rows[j].path in m.files)
  {
    if n > 0 {
      RedeliveryIsLocal(l, pending, resps, now, n - 1, j);
    }
  }
}
