/** The step system contains the code: an uninterrupted `_process` is one of its runs. */
module ProcessRefinement {
  import opened Wrappers
  import opened JobProtocol
  import opened ProtocolTheorems
  import opened JobQueue

  /** Some sequence of events leads from `s` to `t`. */
  ghost predicate Leads(c: Config, s: State, t: State) {
    exists es :: Run(c, s, es) && After(c, s, es) == t
  }

  lemma LeadsNowhere(c: Config, s: State)
    ensures Leads(c, s, s)
  {
    assert Run(c, s, []) && After(c, s, []) == s;
  }

  lemma LeadsOn(c: Config, s: State, u: State, e: Event)
    requires Leads(c, s, u) && Enabled(c, u, e)
    ensures Leads(c, s, Apply(c, u, e))
  {
    var es :| Run(c, s, es) && After(c, s, es) == u;
    RunSnoc(c, s, es, e);
  }

  /** The worker finishes a file it no longer needs. */
  lemma Closes(c: Config, s: State, u: State, i: nat, p: FileName) returns (t: State)
    requires Leads(c, s, u) && IsWorker(c, u, i) && u.workers[i] == Discarding(p)
    ensures Leads(c, s, t) && i < |t.workers| && t.workers[i].Idle? && t.w.rows == u.w.rows && t.w.files == u.w.files - {p}
  {
    LeadsOn(c, s, u, Work(i, DropFile(true)));
    t := Apply(c, u, Work(i, DropFile(true)));
  }

  /** The failure notice may get no answer; the file goes all the same. */
  lemma Notices(c: Config, s: State, u: State, i: nat, id: JobId, p: FileName) returns (t: State)
    requires Leads(c, s, u) && IsWorker(c, u, i) && u.workers[i] == Noticing(id, p)
    ensures Leads(c, s, t) && i < |t.workers| && t.workers[i].Idle? && t.w.rows == u.w.rows && t.w.files == u.w.files - {p}
  {
    LeadsOn(c, s, u, Work(i, PostNotice(NoAnswer, false)));
    t := Closes(c, s, Apply(c, u, Work(i, PostNotice(NoAnswer, false))), i, p);
  }

  /** Row and file have been read; the worker is ready to start. */
  lemma Reads(c: Config, s: State, i: nat, id: JobId) returns (t: State)
    requires IsWorker(c, s, i) && s.workers[i] == Fetched(id) && id in s.w.rows
    ensures var p := s.w.rows[id].path;
      Leads(c, s, t) && t == SetWorker(s, i, if p in s.w.files then Ready(id, p) else Missing(id, p))
  {
    var p := s.w.rows[id].path;
    LeadsNowhere(c, s);
    LeadsOn(c, s, s, Work(i, ReadRow));
    var s1 := SetWorker(s, i, Restoring(id, p));
    assert s1 == Apply(c, s, Work(i, ReadRow));
    LeadsOn(c, s, s1, Work(i, Restore));
    t := SetWorker(s, i, if p in s.w.files then Ready(id, p) else Missing(id, p));
    assert t.workers == s1.workers[i := t.workers[i]];
    assert t == Apply(c, s1, Work(i, Restore));
  }

  /** One attempt begins and ends. */
  lemma Attempts(c: Config, s: State, u: State, i: nat, end: AttemptEnd) returns (t: State)
    requires Leads(c, s, u) && IsWorker(c, u, i) && u.workers[i].Rca? && u.workers[i].phase.Before?
    ensures Leads(c, s, t) && t.w == u.w && |t.workers| == |u.workers| && t.up == u.up && t.workers[i].Rca?
    ensures t.workers[i].job == u.workers[i].job && t.workers[i].path == u.workers[i].path
    ensures t.workers[i].tries == u.workers[i].tries + 1
    ensures t.workers[i].phase == match end
      case Returned(a) => Over(a, false)
      case Raised => if u.workers[i].tries == 0 then Before else Over(None, true)
  {
    LeadsOn(c, s, u, Work(i, BeginAttempt));
    var u1 := Apply(c, u, Work(i, BeginAttempt));
    LeadsOn(c, s, u1, Work(i, EndAttempt(end)));
    t := Apply(c, u1, Work(i, EndAttempt(end)));
  }

  /** The row is RUNNING and the analysis has ended as the loop of `_run_rca` says. */
  lemma Analyses(c: Config, s: State, u: State, i: nat, id: JobId, p: FileName, ends: seq<AttemptEnd>) returns (t: State)
    requires Leads(c, s, u) && IsWorker(c, u, i) && u.workers[i] == Ready(id, p) && id in u.w.rows && |ends| == 2
    ensures Leads(c, s, t) && IsWorker(c, t, i) && t.workers[i].Rca? && t.workers[i].job == id && t.workers[i].path == p
    ensures t.workers[i].phase == Verdicts(AnalysisOf(ends))
    ensures t.w == SetRow(u.w, id, u.w.rows[id].(status := Running, updated := u.w.now))
  {
    LeadsOn(c, s, u, Work(i, MarkRunning));
    var u1 := Apply(c, u, Work(i, MarkRunning));
    t := Attempts(c, s, u1, i, ends[0]);
    if ends[0].Raised? {
      t := Attempts(c, s, t, i, ends[1]);
    }
  }

  lemma Fails(c: Config, s: State, u: State, i: nat, id: JobId, p: FileName) returns (t: State)
    requires Leads(c, s, u) && IsWorker(c, u, i) && u.workers[i].Rca? && u.workers[i].job == id && u.workers[i].path == p
    requires u.workers[i].phase.Over? && id in u.w.rows
    ensures Leads(c, s, t) && i < |t.workers| && t.workers[i].Idle? && t.w.files == u.w.files - {p}
    ensures t.w.rows == u.w.rows[id := u.w.rows[id].(status := Failed, updated := u.w.now)]
  {
    LeadsOn(c, s, u, Work(i, CommitFailure));
    t := Notices(c, s, Apply(c, u, Work(i, CommitFailure)), i, id, p);
  }

  lemma EndsEmpty(c: Config, s: State, u: State, i: nat, id: JobId, p: FileName) returns (t: State)
    requires Leads(c, s, u) && IsWorker(c, u, i) && u.workers[i].Rca? && u.workers[i].job == id && u.workers[i].path == p
    requires u.workers[i].phase == Over(None, false) && id in u.w.rows
    ensures Leads(c, s, t) && i < |t.workers| && t.workers[i].Idle? && t.w.files == u.w.files - {p}
    ensures t.w.rows == u.w.rows[id := u.w.rows[id].(status := Done, updated := u.w.now)]
  {
    LeadsOn(c, s, u, Work(i, CommitNothing));
    t := Closes(c, s, Apply(c, u, Work(i, CommitNothing)), i, p);
  }

  /** The result is stored and sent. */
  lemma Sends(c: Config, s: State, u: State, i: nat, id: JobId, p: FileName, a: Artefact, resp: Response, landed: bool)
    returns (t: State)
    requires Leads(c, s, u) && IsWorker(c, u, i) && u.workers[i].Rca? && u.workers[i].job == id && u.workers[i].path == p
    requires u.workers[i].phase == Over(Some(a), false) && id in u.w.rows && SpringMay(u.w.spring, id, resp, landed)
    ensures Leads(c, s, t) && IsWorker(c, t, i) && t.w.files == u.w.files && t.w.now == u.w.now
    ensures t.w.rows == u.w.rows[id := u.w.rows[id].(status := Delivering, result := Some(a), updated := u.w.now)]
    ensures t.workers[i] == match Classify(resp)
      case Accepted => Finalizing(id, p, a, true)
      case Refused => Finalizing(id, p, a, false)
      case Retry => Idle
  {
    LeadsOn(c, s, u, Work(i, CommitProduct));
    var u1 := Apply(c, u, Work(i, CommitProduct));
    LeadsOn(c, s, u1, Work(i, PostResult(resp, landed)));
    t := Apply(c, u1, Work(i, PostResult(resp, landed)));
  }

  /** The row is finalised and the file discarded. */
  lemma Finalizes(c: Config, s: State, u: State, i: nat, id: JobId, p: FileName, a: Artefact, ok: bool) returns (t: State)
    requires Leads(c, s, u) && IsWorker(c, u, i) && u.workers[i] == Finalizing(id, p, a, ok)
    ensures Leads(c, s, t) && i < |t.workers| && t.workers[i].Idle?
    ensures t.w.rows == MarkRows(u.w.rows, id, ok, u.w.now) && t.w.files == u.w.files - {p}
  {
    LeadsOn(c, s, u, Work(i, Finalize));
    t := Closes(c, s, Apply(c, u, Work(i, Finalize)), i, p);
  }

  lemma Delivers(c: Config, s: State, u: State, i: nat, id: JobId, p: FileName, a: Artefact, resp: Response, landed: bool)
    returns (t: State)
    requires Leads(c, s, u) && IsWorker(c, u, i) && u.workers[i].Rca? && u.workers[i].job == id && u.workers[i].path == p
    requires u.workers[i].phase == Over(Some(a), false) && id in u.w.rows && SpringMay(u.w.spring, id, resp, landed)
    ensures Leads(c, s, t) && i < |t.workers| && t.workers[i].Idle?
    ensures var sent := u.w.rows[id].(status := Delivering, result := Some(a), updated := u.w.now);
      match Classify(resp)
      case Retry => t.w.rows == u.w.rows[id := sent] && t.w.files == u.w.files
      case Accepted => t.w.rows == MarkRows(u.w.rows[id := sent], id, true, u.w.now) && t.w.files == u.w.files - {p}
      case Refused => t.w.rows == MarkRows(u.w.rows[id := sent], id, false, u.w.now) && t.w.files == u.w.files - {p}
  {
    t := Sends(c, s, u, i, id, p, a, resp, landed);
    if !Classify(resp).Retry? {
      t := Finalizes(c, s, t, i, id, p, a, Classify(resp).Accepted?);
    }
  }

  /**
   From the moment a worker holds a job, the events of the step system can replay the sequential
   `_process`: same rows, same files, worker idle again.
   */
  lemma ProcessIsARun(c: Config, s: State, i: nat, id: JobId, ends: seq<AttemptEnd>, resp: Response, landed: bool)
    returns (t: State)
    requires IsWorker(c, s, i) && s.workers[i] == Fetched(id) && |ends| == 2
    requires SpringMay(s.w.spring, id, resp, landed)
    ensures Leads(c, s, t) && i < |t.workers| && t.workers[i].Idle?
    ensures Store(t.w.rows, t.w.files) == Processed(Store(s.w.rows, s.w.files), id, ends, resp, s.w.now)
  {
    if id !in s.w.rows {
      LeadsNowhere(c, s);
      LeadsOn(c, s, s, Work(i, ReadRow));
      t := Apply(c, s, Work(i, ReadRow));
    } else {
      var p := s.w.rows[id].path;
      var u := Reads(c, s, i, id);
      if p !in s.w.files {
        LeadsOn(c, s, u, Work(i, MarkMissing));
        t := Notices(c, s, Apply(c, u, Work(i, MarkMissing)), i, id, p);
      } else {
        t := Replays(c, s, u, i, id, p, ends, resp, landed);
      }
    }
  }

  lemma Replays(c: Config, s: State, u: State, i: nat, id: JobId, p: FileName, ends: seq<AttemptEnd>, resp: Response, landed: bool)
    returns (t: State)
    requires Leads(c, s, u) && IsWorker(c, u, i) && u.workers[i] == Ready(id, p) && |ends| == 2
    requires id in u.w.rows && u.w.rows[id].path == p && p in u.w.files && SpringMay(u.w.spring, id, resp, landed)
    ensures Leads(c, s, t) && i < |t.workers| && t.workers[i].Idle?
    ensures Store(t.w.rows, t.w.files) == Processed(Store(u.w.rows, u.w.files), id, ends, resp, u.w.now)
  {
    var v := Analyses(c, s, u, i, id, p, ends);
    match AnalysisOf(ends)
    case Failure =>
      t := Fails(c, s, v, i, id, p);
    case Product(None) =>
      t := EndsEmpty(c, s, v, i, id, p);
    case Product(Some(a)) =>
      t := Delivers(c, s, v, i, id, p, a, resp, landed);
  }
}
