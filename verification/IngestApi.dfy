/** Accepting a bundle: file first, then the row, then the queue. */
module IngestApi {
  import opened Wrappers
  import opened JobProtocol
  import opened JobRows
  import opened BundleFiles

  /** What the database does to one request. */
  datatype Persist = Saved | CommitRaises | RefreshRaises

  function WithJob(rows: map<JobId, Row>, id: JobId, p: FileName, now: int): map<JobId, Row> {
    rows[id := Row(Pending, 0, p, None, now)]
  }

  /** `after` is `before` with one new file. */
  predicate Filed(before: map<FileName, int>, p: FileName, now: int, after: map<FileName, int>) {
    p !in before && after == before[p := now]
  }

  /** The file written first is gone again, unless the file system refuses to delete it. */
  predicate Undone(before: map<FileName, int>, p: FileName, now: int, fails: bool, after: map<FileName, int>) {
    if fails then Filed(before, p, now, after) else p !in before && after == before
  }

  /**
   `ingest_bundle`: file first, then the row, then the queue; on an error, roll back and discard.
   `fails` says that the file system refuses the discard.
   */
  method IngestBundle(table: JobTable, store: BundleStore, queue: seq<JobId>, id: JobId, how: Persist, fails: bool, now: int)
    returns (accepted: bool, next: seq<JobId>)
    requires store.Valid() && id !in table.rows
    modifies table, store
    ensures store.Valid() && (accepted <==> how.Saved?)
    ensures accepted ==> (exists p :: Filed(old(store.files), p, now, store.files) && table.rows == WithJob(old(table.rows), id, p, now))
    ensures next == if accepted then queue + [id] else queue
    ensures how.CommitRaises? ==>
              table.rows == old(table.rows) && exists p :: Undone(old(store.files), p, now, fails, store.files)
    ensures how.RefreshRaises? ==>
              (exists p :: Undone(old(store.files), p, now, fails, store.files) && table.rows == WithJob(old(table.rows), id, p, now))
  {
    next := queue;
    var path := store.Write(now);
    if !how.CommitRaises? {
      table.rows := table.rows[id := Row(Pending, 0, path, None, now)];
    }
    assert Filed(old(store.files), path, now, store.files);
    if !how.Saved? {
      var _ := store.Discard(path, fails);
      assert old(store.files)[path := now] - {path} == old(store.files);
      assert Undone(old(store.files), path, now, fails, store.files);
      return false, next;
    }
    next := next + [id];
    accepted := true;
  }
}
