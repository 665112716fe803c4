/** The worker's side: one analysis and one whole job, commit by commit. */
module JobQueue {
  import opened Wrappers
  import opened JobProtocol
  import opened JobRows
  import opened BundleFiles

  // ------------------------------------------------------------------ one analysis

  datatype Analysis = Product(artefact: Option<Artefact>) | Failure

  /** `_run_rca`: at most two attempts; the first one that returns decides. */
  method RunRca(ends: seq<AttemptEnd>) returns (r: Analysis, attempts: nat)
    requires |ends| == 2
    ensures attempts == if ends[0].Returned? then 1 else 2
    ensures r == if ends[attempts - 1].Returned? then Product(ends[attempts - 1].artefact) else Failure
  {
    attempts := 0;
    while attempts < 2
      invariant attempts <= 2 && forall k :: 0 <= k < attempts ==> ends[k].Raised?
    {
      attempts := attempts + 1;
      match ends[attempts - 1]
      case Returned(a) => return Product(a), attempts;
      case Raised =>
    }
    r := Failure;
  }

  function Verdicts(r: Analysis): Phase {
    match r
    case Product(a) => Over(a, false)
    case Failure => Over(None, true)
  }

  // ------------------------------------------------------------------ one job

  function AnalysisOf(ends: seq<AttemptEnd>): Analysis
    requires |ends| == 2
  {
    if ends[0].Returned? then Product(ends[0].artefact)
    else if ends[1].Returned? then Product(ends[1].artefact)
    else Failure
  }

  datatype Store = Store(rows: map<JobId, Row>, files: map<FileName, int>)

  /** A job is over: its row is as given and its file is discarded. */
  function Closed(st: Store, id: JobId, row: Row): Store {
    Store(st.rows[id := row], st.files - {row.path})
  }

  /** What the end of the analysis and Spring's answer make of a job whose row and file were there. */
  function Concluded(st: Store, id: JobId, row: Row, r: Analysis, resp: Response): Store {
    match r
    case Failure => Closed(st, id, row.(status := Failed))
    case Product(None) => Closed(st, id, row.(status := Done))
    case Product(Some(a)) =>
      var sent := row.(result := Some(a));
      (match Classify(resp)
       case Accepted => Closed(st, id, sent.(status := Done))
       case Refused => Closed(st, id, sent.(status := Failed))
       case Retry => Store(st.rows[id := sent.(status := Delivering)], st.files))
  }

  /** `_process` without interruption, given how the attempts end and what Spring answers. */
  function Processed(st: Store, id: JobId, ends: seq<AttemptEnd>, resp: Response, now: int): Store
    requires |ends| == 2
  {
    if id !in st.rows then st
    else
      var row := st.rows[id].(updated := now);
      if row.path !in st.files then Closed(st, id, row.(status := Failed))
      else Concluded(st, id, row, AnalysisOf(ends), resp)
  }

  /** `_process` with `_run_rca` and `_deliver_and_finalize`, commit by commit. */
  method Process(table: JobTable, store: BundleStore, id: JobId, ends: seq<AttemptEnd>, resp: Response, now: int)
    requires store.Valid() && |ends| == 2
    modifies table, store
    ensures store.Valid()
    ensures Store(table.rows, store.files) == Processed(Store(old(table.rows), old(store.files)), id, ends, resp, now)
  {
    if id !in table.rows {
      return;
    }
    var path := table.rows[id].path;
    if path !in store.files {
      table.rows := table.rows[id := table.rows[id].(status := Failed, updated := now)];
      var _ := store.Discard(path, false);
      return;
    }
    RunningIsOverwritten(Store(table.rows, store.files), id, AnalysisOf(ends), resp, now);
    table.rows := table.rows[id := table.rows[id].(status := Running, updated := now)];
    var outcome, _ := RunRca(ends);
    assert outcome == AnalysisOf(ends);
    Conclude(table, store, id, outcome, resp, now);
  }

  /** The status written before the analysis leaves no trace in what follows it. */
  lemma RunningIsOverwritten(st: Store, id: JobId, r: Analysis, resp: Response, now: int)
    requires id in st.rows
    ensures var row := st.rows[id].(updated := now);
      Concluded(Store(st.rows[id := row.(status := Running)], st.files), id, row.(status := Running), r, resp)
      == Concluded(st, id, row, r, resp)
  {
  }

  /** The second half of `_process`: commit what the analysis gave, send it, release the file. */
  method Conclude(table: JobTable, store: BundleStore, id: JobId, outcome: Analysis, resp: Response, now: int)
    requires store.Valid() && id in table.rows
    modifies table, store
    ensures store.Valid()
    ensures Store(table.rows, store.files)
            == Concluded(Store(old(table.rows), old(store.files)), id, old(table.rows)[id].(updated := now), outcome, resp)
  {
    var path := table.rows[id].path;
    match outcome
    case Failure =>
      table.rows := table.rows[id := table.rows[id].(status := Failed, updated := now)];
      var _ := store.Discard(path, false);
    case Product(None) =>
      table.rows := table.rows[id := table.rows[id].(status := Done, updated := now)];
      var _ := store.Discard(path, false);
    case Product(Some(a)) =>
      table.rows := table.rows[id := table.rows[id].(status := Delivering, result := Some(a), updated := now)];
      var over := Deliver(table, id, resp, now);
      if over {
        var _ := store.Discard(path, false);
      }
  }

  /** `_deliver_and_finalize`: whether the file is no longer needed. */
  method Deliver(table: JobTable, id: JobId, resp: Response, now: int) returns (over: bool)
    modifies table
    ensures over <==> resp.Answer? && (200 <= resp.code <= 299 || 400 <= resp.code <= 499)
    ensures over ==> table.rows == MarkRows(old(table.rows), id, 200 <= resp.code <= 299 || resp.code == 409, now)
    ensures !over ==> table.rows == old(table.rows)
  {
    match Classify(resp)
    case Refused =>
      var _ := table.Mark(id, false, now);
      over := true;
    case Retry =>
      over := false;
    case Accepted =>
      var _ := table.Mark(id, true, now);
      over := true;
  }
}
