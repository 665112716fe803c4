/**
 Every event keeps the invariant and stays within `Guarantee`.

 First the handful of ways an event changes the world, then the four actors and the environment.
 */
module ProtocolSteps {
  import opened Wrappers
  import opened JobProtocol
  import opened ProtocolInvariant

  // ------------------------------------------------------------------ changes of the world

  lemma SameWorld(c: Config, w: World)
    ensures Guarantee(c, w, w, {})
  {
  }

  lemma RowChange(c: Config, w: World, j: JobId, t: Row)
    requires WorldOk(c, w) && j in w.rows && RowStep(c, w.rows[j], t)
    requires RowOk(c, SetRow(w, j, t), j)
    requires w.rows[j].status.Pending? && !t.status.Pending? ==> !AboutToEnqueue(w, j)
    ensures WorldOk(c, SetRow(w, j, t)) && Guarantee(c, w, SetRow(w, j, t), {j})
  {
    var w' := SetRow(w, j, t);
    forall k | k in w'.rows ensures RowOk(c, w', k) {
      assert k != j ==> RowOk(c, w, k);
    }
    forall p | p in w'.ingests ensures IngestOk(c, w', p) {
      assert IngestOk(c, w, p);
    }
  }

  lemma SpringChange(c: Config, w: World, j: JobId, rep: Report, landed: bool)
    requires WorldOk(c, w) && j < w.nextJob && (landed ==> j !in w.spring)
    requires j in w.rows ==>
      if rep.Notice? then w.rows[j].status.Failed? && w.rows[j].result.None?
      else w.rows[j].result == Some(rep.artefact) && (Terminal(w.rows[j]) || (w.rows[j].status.Delivering? && (Durable(c) ==> rep.full)))
    ensures var w' := w.(spring := Posted(w.spring, j, rep, landed));
      WorldOk(c, w') && Guarantee(c, w, w', {})
  {
    var w' := w.(spring := Posted(w.spring, j, rep, landed));
    forall k | k in w'.rows ensures RowOk(c, w', k) {
      assert RowOk(c, w, k);
    }
    forall p | p in w'.ingests ensures IngestOk(c, w', p) {
      assert IngestOk(c, w, p);
    }
  }

  lemma FileChange(c: Config, w: World, p: FileName, deleted: bool)
    requires WorldOk(c, w) && (Durable(c) ==> DeadPath(w, p))
    ensures var w' := w.(files := Discarded(w.files, p, deleted));
      WorldOk(c, w') && Guarantee(c, w, w', {})
  {
    var w' := w.(files := Discarded(w.files, p, deleted));
    forall k | k in w'.rows ensures RowOk(c, w', k) {
      assert RowOk(c, w, k);
    }
    forall q | q in w'.ingests ensures IngestOk(c, w', q) {
      assert IngestOk(c, w, q);
    }
  }

  /** The file of a finished row is needed by nobody. */
  lemma DeadAfterEnd(c: Config, w: World, j: JobId)
    requires WorldOk(c, w) && j in w.rows && Terminal(w.rows[j])
    ensures DeadPath(w, w.rows[j].path)
  {
    assert RowOk(c, w, j);
    var p := w.rows[j].path;
    if p in w.ingests {
      assert IngestOk(c, w, p);
    }
  }

  lemma MarkChange(c: Config, w: World, j: JobId, p: FileName, a: Artefact, ok: bool)
    requires WorldOk(c, w) && Sender(w, j, p, a) && (ok ==> j in w.spring)
    ensures var w' := w.(rows := MarkRows(w.rows, j, ok, w.now));
      WorldOk(c, w') && Guarantee(c, w, w', {j}) && DeadPath(w', p)
  {
    var w' := w.(rows := MarkRows(w.rows, j, ok, w.now));
    if j in w.rows {
      assert RowOk(c, w, j);
      if w.rows[j].status.Delivering? {
        RowChange(c, w, j, w'.rows[j]);
        assert w' == SetRow(w, j, w'.rows[j]);
      }
      DeadAfterEnd(c, w', j);
    }
  }

  lemma PurgeChange(c: Config, w: World, gone: set<JobId>)
    requires WorldOk(c, w) && forall j :: j in gone ==> j in w.rows && Terminal(w.rows[j])
    ensures WorldOk(c, w.(rows := w.rows - gone)) && Guarantee(c, w, w.(rows := w.rows - gone), gone)
  {
    var w' := w.(rows := w.rows - gone);
    forall k | k in w'.rows ensures RowOk(c, w', k) {
      assert RowOk(c, w, k);
    }
    forall p | p in w'.ingests ensures IngestOk(c, w', p) {
      assert IngestOk(c, w, p);
    }
  }

  // ------------------------------------------------------------------ the worker's own point

  predicate PendingOrRunning(w: World, j: JobId) {
    j in w.rows && (w.rows[j].status.Pending? || w.rows[j].status.Running?)
  }

  /** What a worker event may assume about its own worker. */
  ghost predicate Ours(c: Config, s: State, i: nat) {
    && i < |s.workers| && WorldOk(c, s.w) && WorkerOk(c, s.w, s.workers[i])
    && (Holds(s.workers[i]) ==> !AboutToEnqueue(s.w, s.workers[i].job))
  }

  /** The world after a worker event, the rows it touched, and the worker's new point. */
  ghost predicate WorkerEffect(c: Config, s: State, i: nat, s': State, js: set<JobId>) {
    && i < |s.workers| && i < |s'.workers|
    && WorldOk(c, s'.w) && Guarantee(c, s.w, s'.w, js) && s'.w.files.Keys <= s.w.files.Keys
    && WorkerOk(c, s'.w, s'.workers[i])
    && (forall j :: j in js && PendingOrRunning(s.w, j) ==> Holds(s.workers[i]) && s.workers[i].job == j)
  }

  lemma TakingEffect(c: Config, s: State, i: nat, a: WorkerAct)
    requires Ours(c, s, i) && AllPending(s.w, s.queue) && WorkerEnabled(c, s, i, a)
    requires a.Take? || a.ReadRow? || a.Restore? || a.Abandon?
    ensures WorkerEffect(c, s, i, ApplyWorker(c, s, i, a), {})
  {
    SameWorld(c, s.w);
    if a.Take? {
      assert PendingRow(s.w, s.queue[0]);
    }
    if a.Restore? {
      assert RowOk(c, s.w, s.workers[i].job);
    }
  }

  lemma AttemptEffect(c: Config, s: State, i: nat, a: WorkerAct)
    requires Ours(c, s, i) && WorkerEnabled(c, s, i, a)
    requires a.BeginAttempt? || a.EndAttempt?
    ensures WorkerEffect(c, s, i, ApplyWorker(c, s, i, a), {})
  {
    SameWorld(c, s.w);
    var wk := s.workers[i];
    assert TimeOk(c, ApplyWorker(c, s, i, a).workers[i], s.w.rows[wk.job].updated, s.w.now);
  }

  /** A worker event that leaves the world as `w` and its worker at the point `wk`. */
  lemma Arrives(c: Config, s: State, i: nat, w: World, wk: Worker, js: set<JobId>)
    requires i < |s.workers| && WorldOk(c, w) && Guarantee(c, s.w, w, js) && w.files.Keys <= s.w.files.Keys
    requires WorkerOk(c, w, wk)
    requires forall j :: j in js && PendingOrRunning(s.w, j) ==> Holds(s.workers[i]) && s.workers[i].job == j
    ensures WorkerEffect(c, s, i, SetWorker(s, i, wk).(w := w), js)
  {
  }

  lemma StartsRunning(c: Config, w: World, j: JobId, p: FileName)
    requires WorldOk(c, w) && HasRow(w, j, Pending, p) && !AboutToEnqueue(w, j)
    ensures var w' := SetRow(w, j, w.rows[j].(status := Running, updated := w.now));
      WorldOk(c, w') && Guarantee(c, w, w', {j}) && WorkerOk(c, w', Rca(j, p, Before, 0, w.now, 0))
  {
    assert RowOk(c, w, j);
    RowChange(c, w, j, w.rows[j].(status := Running, updated := w.now));
  }

  lemma RunningEffect(c: Config, s: State, i: nat)
    requires Ours(c, s, i) && WorkerEnabled(c, s, i, MarkRunning)
    ensures WorkerEffect(c, s, i, ApplyWorker(c, s, i, MarkRunning), {s.workers[i].job})
  {
    var wk := s.workers[i];
    var w := SetRow(s.w, wk.job, s.w.rows[wk.job].(status := Running, updated := s.w.now));
    StartsRunning(c, s.w, wk.job, wk.path);
    Arrives(c, s, i, w, Rca(wk.job, wk.path, Before, 0, s.w.now, 0), {wk.job});
  }

  lemma FailsMissing(c: Config, w: World, j: JobId, p: FileName)
    requires WorldOk(c, w) && HasRow(w, j, Pending, p) && !AboutToEnqueue(w, j)
    ensures var w' := SetRow(w, j, w.rows[j].(status := Failed, updated := w.now));
      WorldOk(c, w') && Guarantee(c, w, w', {j}) && Notifier(w', j, p)
  {
    var w' := SetRow(w, j, w.rows[j].(status := Failed, updated := w.now));
    assert RowOk(c, w, j);
    RowChange(c, w, j, w'.rows[j]);
    DeadAfterEnd(c, w', j);
    assert RowOk(c, w', j);
  }

  lemma MissingEffect(c: Config, s: State, i: nat)
    requires Ours(c, s, i) && WorkerEnabled(c, s, i, MarkMissing)
    ensures WorkerEffect(c, s, i, ApplyWorker(c, s, i, MarkMissing), {s.workers[i].job})
  {
    var wk := s.workers[i];
    var w := SetRow(s.w, wk.job, s.w.rows[wk.job].(status := Failed, updated := s.w.now));
    FailsMissing(c, s.w, wk.job, wk.path);
    Arrives(c, s, i, w, Noticing(wk.job, wk.path), {wk.job});
  }

  /** How the three commits at the end of the analysis leave the row. */
  function EndRow(s: State, i: nat, a: WorkerAct): Row
    requires i < |s.workers| && AnalysisOver(s, s.workers[i])
  {
    var r := s.w.rows[s.workers[i].job].(updated := s.w.now);
    if a.CommitProduct? then r.(status := Delivering, result := s.workers[i].phase.product)
    else if a.CommitNothing? then r.(status := Done)
    else r.(status := Failed)
  }

  lemma EndRowChange(c: Config, s: State, i: nat, a: WorkerAct)
    requires Ours(c, s, i) && WorkerEnabled(c, s, i, a)
    requires a.CommitProduct? || a.CommitNothing? || a.CommitFailure?
    ensures var wk := s.workers[i]; var w' := SetRow(s.w, wk.job, EndRow(s, i, a));
      && ApplyWorker(c, s, i, a).w == w' && WorldOk(c, w') && Guarantee(c, s.w, w', {wk.job})
      && HasRow(s.w, wk.job, Running, wk.path)
  {
    var wk := s.workers[i];
    assert RowOk(c, s.w, wk.job);
    RowChange(c, s.w, wk.job, EndRow(s, i, a));
  }

  /** After the commit the worker is about to deliver, to discard or to report. */
  lemma CommitPoint(c: Config, w: World, j: JobId, p: FileName)
    requires WorldOk(c, w) && j in w.rows && w.rows[j].path == p
    ensures w.rows[j].status.Delivering? && w.rows[j].result.Some? ==> Sender(w, j, p, w.rows[j].result.value)
    ensures w.rows[j].status.Done? ==> DeadPath(w, p)
    ensures w.rows[j].status.Failed? && w.rows[j].result.None? ==> Notifier(w, j, p)
  {
    assert RowOk(c, w, j);
    if Terminal(w.rows[j]) {
      DeadAfterEnd(c, w, j);
    }
  }

  lemma ProductEffect(c: Config, s: State, i: nat)
    requires Ours(c, s, i) && WorkerEnabled(c, s, i, CommitProduct)
    ensures WorkerEffect(c, s, i, ApplyWorker(c, s, i, CommitProduct), {s.workers[i].job})
  {
    var wk := s.workers[i];
    var w := SetRow(s.w, wk.job, EndRow(s, i, CommitProduct));
    EndRowChange(c, s, i, CommitProduct);
    CommitPoint(c, w, wk.job, wk.path);
    Arrives(c, s, i, w, Sending(wk.job, wk.path, wk.phase.product.value), {wk.job});
  }

  lemma NothingEffect(c: Config, s: State, i: nat)
    requires Ours(c, s, i) && WorkerEnabled(c, s, i, CommitNothing)
    ensures WorkerEffect(c, s, i, ApplyWorker(c, s, i, CommitNothing), {s.workers[i].job})
  {
    var wk := s.workers[i];
    var w := SetRow(s.w, wk.job, EndRow(s, i, CommitNothing));
    EndRowChange(c, s, i, CommitNothing);
    CommitPoint(c, w, wk.job, wk.path);
    Arrives(c, s, i, w, Discarding(wk.path), {wk.job});
  }

  lemma FailureEffect(c: Config, s: State, i: nat)
    requires Ours(c, s, i) && WorkerEnabled(c, s, i, CommitFailure)
    ensures WorkerEffect(c, s, i, ApplyWorker(c, s, i, CommitFailure), {s.workers[i].job})
  {
    var wk := s.workers[i];
    var w := SetRow(s.w, wk.job, EndRow(s, i, CommitFailure));
    assert RowOk(c, s.w, wk.job);
    EndRowChange(c, s, i, CommitFailure);
    CommitPoint(c, w, wk.job, wk.path);
    Arrives(c, s, i, w, Noticing(wk.job, wk.path), {wk.job});
  }

  /** Posting a result: Spring may store it, and the row stays as it is. */
  lemma PostWorld(c: Config, w: World, j: JobId, p: FileName, a: Artefact, resp: Response, landed: bool)
    requires WorldOk(c, w) && Sender(w, j, p, a) && SpringMay(w.spring, j, resp, landed)
    ensures var w' := w.(spring := Posted(w.spring, j, Success(a, true), landed));
      WorldOk(c, w') && Guarantee(c, w, w', {}) && Sender(w', j, p, a) && (Classify(resp).Accepted? ==> j in w'.spring)
  {
    SpringChange(c, w, j, Success(a, true), landed);
    FrameSender(c, w, w.(spring := Posted(w.spring, j, Success(a, true), landed)), {}, j, p, a);
  }

  lemma DeliverEffect(c: Config, s: State, i: nat, a: WorkerAct)
    requires Ours(c, s, i) && WorkerEnabled(c, s, i, a) && a.PostResult?
    ensures WorkerEffect(c, s, i, ApplyWorker(c, s, i, a), {})
  {
    var wk := s.workers[i];
    var w := s.w.(spring := Posted(s.w.spring, wk.job, Success(wk.artefact, true), a.landed));
    PostWorld(c, s.w, wk.job, wk.path, wk.artefact, a.resp, a.landed);
    var next := match Classify(a.resp)
      case Accepted => Finalizing(wk.job, wk.path, wk.artefact, true)
      case Refused => Finalizing(wk.job, wk.path, wk.artefact, false)
      case Retry => Idle;
    Arrives(c, s, i, w, next, {});
  }

  lemma NoticeEffect(c: Config, s: State, i: nat, a: WorkerAct)
    requires Ours(c, s, i) && WorkerEnabled(c, s, i, a) && a.PostNotice?
    ensures WorkerEffect(c, s, i, ApplyWorker(c, s, i, a), {})
  {
    var wk := s.workers[i];
    SpringChange(c, s.w, wk.job, Notice, a.landed);
    FrameDeadPath(c, s.w, s.w.(spring := Posted(s.w.spring, wk.job, Notice, a.landed)), {}, wk.path);
  }

  lemma FinalizeEffect(c: Config, s: State, i: nat)
    requires Ours(c, s, i) && WorkerEnabled(c, s, i, Finalize)
    ensures WorkerEffect(c, s, i, ApplyWorker(c, s, i, Finalize), {s.workers[i].job})
  {
    var wk := s.workers[i];
    var w := s.w.(rows := MarkRows(s.w.rows, wk.job, wk.ok, s.w.now));
    MarkChange(c, s.w, wk.job, wk.path, wk.artefact, wk.ok);
    SenderIsDone(c, s.w, wk.job, wk.path, wk.artefact);
    Arrives(c, s, i, w, Discarding(wk.path), {wk.job});
  }

  /** Whoever delivers a job no longer works on a PENDING or RUNNING row. */
  lemma SenderIsDone(c: Config, w: World, j: JobId, p: FileName, a: Artefact)
    requires Sender(w, j, p, a)
    ensures !PendingOrRunning(w, j)
  {
  }

  lemma DropEffect(c: Config, s: State, i: nat, deleted: bool)
    requires Ours(c, s, i) && WorkerEnabled(c, s, i, DropFile(deleted))
    ensures WorkerEffect(c, s, i, ApplyWorker(c, s, i, DropFile(deleted)), {})
  {
    FileChange(c, s.w, s.workers[i].path, deleted);
  }

  function Touched(s: State, i: nat, a: WorkerAct): set<JobId>
    requires i < |s.workers|
  {
    var wk := s.workers[i];
    if (a.MarkRunning? || a.MarkMissing? || a.CommitProduct? || a.CommitNothing? || a.CommitFailure? || a.Finalize?)
       && !wk.Idle? && !wk.Discarding?
    then {wk.job} else {}
  }

  lemma CommittingEffect(c: Config, s: State, i: nat, a: WorkerAct)
    requires Ours(c, s, i) && WorkerEnabled(c, s, i, a)
    requires a.MarkRunning? || a.MarkMissing? || a.CommitProduct? || a.CommitNothing? || a.CommitFailure? || a.Finalize?
    ensures WorkerEffect(c, s, i, ApplyWorker(c, s, i, a), {s.workers[i].job})
  {
    match a
    case MarkRunning => RunningEffect(c, s, i);
    case MarkMissing => MissingEffect(c, s, i);
    case CommitProduct => ProductEffect(c, s, i);
    case CommitNothing => NothingEffect(c, s, i);
    case CommitFailure => FailureEffect(c, s, i);
    case Finalize => FinalizeEffect(c, s, i);
  }

  lemma AnyWorkerEffect(c: Config, s: State, i: nat, a: WorkerAct)
    requires Ours(c, s, i) && AllPending(s.w, s.queue) && WorkerEnabled(c, s, i, a)
    ensures WorkerEffect(c, s, i, ApplyWorker(c, s, i, a), Touched(s, i, a))
  {
    if a.MarkRunning? || a.MarkMissing? || a.CommitProduct? || a.CommitNothing? || a.CommitFailure? || a.Finalize? {
      CommittingEffect(c, s, i, a);
    } else if a.BeginAttempt? || a.EndAttempt? {
      AttemptEffect(c, s, i, a);
    } else if a.PostResult? {
      DeliverEffect(c, s, i, a);
    } else if a.PostNotice? {
      NoticeEffect(c, s, i, a);
    } else if a.DropFile? {
      DropEffect(c, s, i, a.deleted);
    } else {
      TakingEffect(c, s, i, a);
    }
  }

  // ------------------------------------------------------------------ worker events keep the invariant

  /** How a worker event changes the rest of the state. */
  ghost predicate WorkerMove(s: State, i: nat, taking: bool, s': State) {
    && i < |s.workers| == |s'.workers| && s'.workers == s.workers[i := s'.workers[i]]
    && s'.rec == s.rec && s'.cln == s.cln && s'.rp == s.rp && s'.up == s.up && s'.w.ingests == s.w.ingests
    && (if taking then s.queue != [] && s'.queue == s.queue[1..] else s'.queue == s.queue)
    && s'.unfinished == s.unfinished - (if !taking && s'.workers[i].Idle? then 1 else 0)
    && (if taking then s.workers[i].Idle? && s'.workers[i] == Fetched(s.queue[0]) else !s.workers[i].Idle?)
    && (!taking && Holds(s'.workers[i]) ==> Holds(s.workers[i]) && s'.workers[i].job == s.workers[i].job)
  }

  lemma WorkerFrame(c: Config, s: State, i: nat, a: WorkerAct)
    requires WorkerEnabled(c, s, i, a)
    ensures WorkerMove(s, i, a.Take?, ApplyWorker(c, s, i, a))
  {
  }

  lemma HeldRow(c: Config, w: World, wk: Worker)
    requires WorkerOk(c, w, wk) && Holds(wk)
    ensures PendingOrRunning(w, wk.job)
  {
  }

  lemma QueuedRow(w: World, queue: seq<JobId>, j: JobId)
    requires AllPending(w, queue) && j in queue
    ensures PendingRow(w, j)
  {
    var k :| 0 <= k < |queue| && queue[k] == j;
    assert PendingRow(w, queue[k]);
  }

  lemma ReaperRow(w: World, rp: Reaper, j: JobId)
    requires ReaperOk(w, rp) && j in ReaperJobs(rp)
    ensures PendingOrRunning(w, j)
  {
    var k :| 0 <= k < |ReaperJobs(rp)| && ReaperJobs(rp)[k] == j;
    match rp
    case Selected(claims) => assert ClaimOk(w, claims[k]);
    case Listed(ids) => assert PendingRow(w, ids[k]);
    case Requeueing(enq, _) => assert PendingRow(w, enq[k]);
    case _ =>
  }

  /** The other workers do not notice. */
  lemma OtherWorkers(c: Config, s: State, i: nat, s': State, js: set<JobId>)
    requires WorldOk(c, s.w) && WorkersOk(c, s) && OneHolder(s)
    requires WorkerEffect(c, s, i, s', js) && |s.workers| == |s'.workers| && s'.workers == s.workers[i := s'.workers[i]]
    ensures WorkersOk(c, s')
  {
    forall k | 0 <= k < |s'.workers| ensures WorkerOk(c, s'.w, s'.workers[k]) {
      if k != i {
        assert WorkerOk(c, s.w, s.workers[k]);
        if Holds(s.workers[k]) {
          HeldRow(c, s.w, s.workers[k]);
        }
        FrameWorker(c, s.w, s'.w, js, s.workers[k]);
      }
    }
  }

  /** Nor do the queue, the reaper, the reconciler and the cleaner. */
  lemma OtherActors(c: Config, s: State, i: nat, s': State, js: set<JobId>)
    requires WorldOk(c, s.w) && OneHolder(s) && AllPending(s.w, s.queue) && ReaperOk(s.w, s.rp)
    requires ReconcilerOk(c, s.w, s.rec) && CleanerOk(c, s.w, s.cln)
    requires WorkerEffect(c, s, i, s', js)
    ensures AllPending(s'.w, s.queue) && ReconcilerOk(c, s'.w, s.rec) && ReaperOk(s'.w, s.rp) && CleanerOk(c, s'.w, s.cln)
  {
    forall j | j in s.queue ensures j !in js {
      QueuedRow(s.w, s.queue, j);
    }
    FramePending(c, s.w, s'.w, js, s.queue);
    forall j | j in ReaperJobs(s.rp) ensures j !in js {
      ReaperRow(s.w, s.rp, j);
    }
    FrameReaper(c, s.w, s'.w, js, s.rp);
    FrameReconciler(c, s.w, s'.w, js, s.rec);
    FrameCleaner(c, s.w, s'.w, js, s.cln);
  }

  lemma TailPending(w: World, queue: seq<JobId>)
    requires queue != [] && AllPending(w, queue)
    ensures AllPending(w, queue[1..])
  {
    forall k | 0 <= k < |queue[1..]| ensures PendingRow(w, queue[1..][k]) {
      assert PendingRow(w, queue[k + 1]);
    }
  }

  lemma TakeKeepsHolder(s: State, i: nat, s': State)
    requires OneHolder(s) && WorkerMove(s, i, true, s')
    ensures OneHolder(s')
  {
    var j := s.queue[0];
    assert j in s.queue;
    assert forall k :: AboutToEnqueue(s'.w, k) <==> AboutToEnqueue(s.w, k);
    forall k | 0 <= k < |s'.queue| ensures s'.queue[k] in s.queue && s'.queue[k] != j {
      assert s'.queue[k] == s.queue[k + 1];
    }
  }

  /** A worker that does not take keeps what it holds, or less. */
  lemma HolderShrinks(s: State, i: nat, s': State)
    requires OneHolder(s) && WorkerMove(s, i, false, s')
    ensures OneHolder(s')
  {
    assert forall k :: AboutToEnqueue(s'.w, k) <==> AboutToEnqueue(s.w, k);
  }

  /** The invariant together with the bound on how far the world moved. */
  ghost predicate Keeps(c: Config, s: State, s': State, js: set<JobId>) {
    Inv(c, s') && Guarantee(c, s.w, s'.w, js)
  }

  lemma WorkerMoveKeeps(c: Config, s: State, i: nat, taking: bool, s': State, js: set<JobId>)
    requires Inv(c, s) && s.up && WorkerMove(s, i, taking, s') && WorkerEffect(c, s, i, s', js)
    ensures Keeps(c, s, s', js)
  {
    OtherWorkers(c, s, i, s', js);
    OtherActors(c, s, i, s', js);
    if taking {
      TailPending(s'.w, s.queue);
      TakeKeepsHolder(s, i, s');
    } else {
      HolderShrinks(s, i, s');
    }
    BusyUpdate(s.workers, i, s'.workers[i]);
  }

  lemma WorkerKeeps(c: Config, s: State, i: nat, a: WorkerAct)
    requires Orderly(c) && Inv(c, s) && WorkerEnabled(c, s, i, a)
    ensures Keeps(c, s, ApplyWorker(c, s, i, a), Touched(s, i, a))
  {
    assert WorkerOk(c, s.w, s.workers[i]);
    AnyWorkerEffect(c, s, i, a);
    WorkerFrame(c, s, i, a);
    WorkerMoveKeeps(c, s, i, a.Take?, ApplyWorker(c, s, i, a), Touched(s, i, a));
  }
}
