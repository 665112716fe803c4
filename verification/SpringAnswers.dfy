/**
 What each answer of Spring does to a job, by status code.

 2xx and 409 end it DONE and release its file; the other 4xx end it FAILED and release its file; any other
 code, and no answer at all, leave it DELIVERING with its result and its file.
 */
module SpringAnswers {
  import opened Wrappers
  import opened JobProtocol
  import opened JobQueue
  import opened DeliveryReconciler

  /** The row and the files of a job after an answer, code by code. */
  predicate Decided(resp: Response, row: Row, files: map<FileName, int>, now: int, next: Row, left: map<FileName, int>) {
    && (resp.Answer? && (200 <= resp.code <= 299 || resp.code == 409) ==>
          next == row.(status := Done, updated := now) && left == files - {row.path})
    && (resp.Answer? && 400 <= resp.code <= 499 && resp.code != 409 ==>
          next == row.(status := Failed, updated := now) && left == files - {row.path})
    && (resp.NoAnswer? || resp.code < 200 || 300 <= resp.code <= 399 || resp.code >= 500 ==>
          next == row && left == files)
  }

  /** The sequential job: its first attempt, or its second after a failed first, returns an artefact. */
  lemma ProcessedByCode(st: Store, id: JobId, ends: seq<AttemptEnd>, a: Artefact, resp: Response, now: int)
    requires |ends| == 2 && id in st.rows && st.rows[id].path in st.files
    requires ends[0] == Returned(Some(a)) || (ends[0].Raised? && ends[1] == Returned(Some(a)))
    ensures var t := Processed(st, id, ends, resp, now);
      var sent := st.rows[id].(status := Delivering, result := Some(a), updated := now);
      && id in t.rows && t.rows == st.rows[id := t.rows[id]]
      && Decided(resp, sent, st.files, now, t.rows[id], t.files)
  {
  }

  /** Without an artefact Spring's answer does not matter: no file or two failures end the job FAILED, an empty analysis DONE. */
  lemma ProcessedWithout(st: Store, id: JobId, ends: seq<AttemptEnd>, resp: Response, now: int)
    requires |ends| == 2 && id in st.rows
    ensures var t := Processed(st, id, ends, resp, now); var r := st.rows[id];
      && (r.path !in st.files ==> t == Store(st.rows[id := r.(status := Failed, updated := now)], st.files))
      && (r.path in st.files && ends[0].Raised? && ends[1].Raised? ==>
            t == Store(st.rows[id := r.(status := Failed, updated := now)], st.files - {r.path}))
      && (r.path in st.files && (ends[0] == Returned(None) || (ends[0].Raised? && ends[1] == Returned(None))) ==>
            t == Store(st.rows[id := r.(status := Done, updated := now)], st.files - {r.path}))
  {
    assert st.rows[id].path !in st.files ==> st.files - {st.rows[id].path} == st.files;
  }

  /** One overdue item of the reconciler. */
  lemma RedeliveredByCode(l: Ledger, pending: seq<Overdue>, resps: seq<Response>, now: int, n: nat)
    requires n < |pending| == |resps|
    requires var m := Redelivered(l, pending, resps, now, n); var o := pending[n];
      o.result.Some? && o.job in m.rows && m.rows[o.job].status.Delivering? && m.rows[o.job].path == o.path
    ensures var m := Redelivered(l, pending, resps, now, n); var t := Redelivered(l, pending, resps, now, n + 1);
      var o := pending[n];
      && o.job in t.rows && t.rows == m.rows[o.job := t.rows[o.job]]
      && Decided(resps[n], m.rows[o.job], m.files, now, t.rows[o.job], t.files)
      && t.delivered == m.delivered + (if resps[n].Answer? && (200 <= resps[n].code <= 299 || resps[n].code == 409) then 1 else 0)
  {
    var m := Redelivered(l, pending, resps, now, n);
    assert m.rows[pending[n].job := m.rows[pending[n].job]] == m.rows;
  }

  // ------------------------------------------------------------------ the steps

  /** A worker's POST, and what it does next with the row if Spring decided. */
  ghost function PostThenFinalise(c: Config, s: State, i: nat, resp: Response, landed: bool): State
    requires WorkerEnabled(c, s, i, PostResult(resp, landed))
  {
    var u := ApplyWorker(c, s, i, PostResult(resp, landed));
    if WorkerEnabled(c, u, i, Finalize) then ApplyWorker(c, u, i, Finalize) else u
  }

  lemma PostedByCode(c: Config, s: State, i: nat, resp: Response, landed: bool)
    requires WorkerEnabled(c, s, i, PostResult(resp, landed))
    requires s.workers[i].job in s.w.rows && s.w.rows[s.workers[i].job].status.Delivering?
    requires s.w.rows[s.workers[i].job].path == s.workers[i].path
    ensures var j, p := s.workers[i].job, s.workers[i].path; var t := PostThenFinalise(c, s, i, resp, landed);
      && i < |t.workers| && j in t.w.rows && t.w.rows == s.w.rows[j := t.w.rows[j]] && t.w.files == s.w.files
      && t.workers[i] == (if t.w.rows[j].status.Delivering? then Idle else Discarding(p))
      && Decided(resp, s.w.rows[j], s.w.files, s.w.now, t.w.rows[j],
                 if t.workers[i].Idle? then t.w.files else t.w.files - {p})
  {
    assert s.w.rows[s.workers[i].job := s.w.rows[s.workers[i].job]] == s.w.rows;
  }

  /** The reconciler's POST, and what it does next with the row if Spring decided. */
  ghost function RedeliverThenConfirm(c: Config, s: State, resp: Response, landed: bool): State
    requires ReconcilerEnabled(c, s, Redeliver(resp, landed))
  {
    var u := ApplyReconciler(c, s, Redeliver(resp, landed));
    if ReconcilerEnabled(c, u, Confirm) then ApplyReconciler(c, u, Confirm) else u
  }

  lemma ResentByCode(c: Config, s: State, resp: Response, landed: bool)
    requires ReconcilerEnabled(c, s, Redeliver(resp, landed))
    requires s.rec.parcel.job in s.w.rows && s.w.rows[s.rec.parcel.job].status.Delivering?
    requires s.w.rows[s.rec.parcel.job].path == s.rec.parcel.path
    ensures var j, p := s.rec.parcel.job, s.rec.parcel.path; var t := RedeliverThenConfirm(c, s, resp, landed);
      && j in t.w.rows && t.w.rows == s.w.rows[j := t.w.rows[j]] && t.w.files == s.w.files
      && t.rec == (if t.w.rows[j].status.Delivering? then Walking(s.rec.todo) else Dropping(p, s.rec.todo))
      && Decided(resp, s.w.rows[j], s.w.files, s.w.now, t.w.rows[j],
                 if t.rec.Walking? then t.w.files else t.w.files - {p})
  {
    assert s.w.rows[s.rec.parcel.job := s.w.rows[s.rec.parcel.job]] == s.w.rows;
  }
}
