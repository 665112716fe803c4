/** Ingest handlers, reconciler and cleaner keep the invariant. */
module ProtocolActors {
  import opened Wrappers
  import opened JobProtocol
  import opened ProtocolInvariant
  import opened ProtocolSteps

  predicate TouchesNoHeldRow(w: World, js: set<JobId>) {
    forall j :: j in js ==> !PendingOrRunning(w, j)
  }

  /** A world change by somebody who holds no job. */
  ghost predicate Aside(c: Config, v: World, w: World, js: set<JobId>) {
    && WorldOk(c, w) && Guarantee(c, v, w, js) && TouchesNoHeldRow(v, js)
    && forall p :: p in w.files && p >= v.nextFile ==> w.files[p] == w.now
  }

  lemma AsideWorkers(c: Config, s: State, w: World, js: set<JobId>)
    requires WorldOk(c, s.w) && WorkersOk(c, s) && AllPending(s.w, s.queue) && Aside(c, s.w, w, js)
    ensures forall i :: 0 <= i < |s.workers| ==> WorkerOk(c, w, s.workers[i])
    ensures AllPending(w, s.queue)
  {
    forall i | 0 <= i < |s.workers| ensures WorkerOk(c, w, s.workers[i]) {
      assert WorkerOk(c, s.w, s.workers[i]);
      if Holds(s.workers[i]) {
        HeldRow(c, s.w, s.workers[i]);
      }
      FrameWorker(c, s.w, w, js, s.workers[i]);
    }
    forall j | j in s.queue ensures j !in js {
      QueuedRow(s.w, s.queue, j);
    }
    FramePending(c, s.w, w, js, s.queue);
  }

  lemma AsideReaper(c: Config, v: World, w: World, js: set<JobId>, rp: Reaper)
    requires ReaperOk(v, rp) && Aside(c, v, w, js)
    ensures ReaperOk(w, rp)
  {
    forall j | j in ReaperJobs(rp) ensures j !in js {
      ReaperRow(v, rp, j);
    }
    FrameReaper(c, v, w, js, rp);
  }

  // ------------------------------------------------------------------ ingest

  lemma WriteEffect(c: Config, s: State)
    requires WorldOk(c, s.w)
    ensures Aside(c, s.w, WriteFile(s.w), {})
  {
    var w := WriteFile(s.w);
    forall k | k in w.rows ensures RowOk(c, w, k) {
      assert RowOk(c, s.w, k);
    }
    forall p | p in w.ingests ensures IngestOk(c, w, p) {
      if p in s.w.ingests && p != s.w.nextFile {
        assert IngestOk(c, s.w, p);
      } else {
        assert forall j :: j in w.rows ==> RowOk(c, s.w, j);
      }
    }
  }

  lemma NewRows(c: Config, s: State, p: FileName, next: Ingest)
    requires WorldOk(c, s.w) && p in s.w.ingests && s.w.ingests[p].Wrote?
    ensures var w := CommitJob(s, p, next).w; forall k :: k in w.rows ==> RowOk(c, w, k)
    ensures NoRow(s.w, p)
  {
    assert IngestOk(c, s.w, p);
    var w := CommitJob(s, p, next).w;
    forall k | k in w.rows ensures RowOk(c, w, k) {
      if k in s.w.rows {
        assert RowOk(c, s.w, k);
      }
    }
  }

  lemma NewIngests(c: Config, s: State, p: FileName, next: Ingest)
    requires WorldOk(c, s.w) && p in s.w.ingests && s.w.ingests[p].Wrote? && NoRow(s.w, p)
    requires next == Committed(s.w.nextJob) || (next.Undo? && !c.atomicIngest)
    ensures var w := CommitJob(s, p, next).w; forall q :: q in w.ingests ==> IngestOk(c, w, q)
  {
    var w := CommitJob(s, p, next).w;
    forall k | k in s.w.rows ensures k < s.w.nextJob {
      assert RowOk(c, s.w, k);
    }
    forall q | q in w.ingests ensures IngestOk(c, w, q) {
      assert IngestOk(c, s.w, q);
    }
  }

  lemma NewWorld(c: Config, s: State, p: FileName, next: Ingest)
    requires WorldOk(c, s.w) && p in s.w.ingests && s.w.ingests[p].Wrote?
    requires next == Committed(s.w.nextJob) || (next.Undo? && !c.atomicIngest)
    ensures WorldOk(c, CommitJob(s, p, next).w)
  {
    NewRows(c, s, p, next);
    NewIngests(c, s, p, next);
  }

  lemma NewRowBound(c: Config, s: State, p: FileName, next: Ingest)
    requires s.w.nextJob !in s.w.rows && p in s.w.ingests && s.w.ingests[p].Wrote? && !next.Wrote?
    ensures Guarantee(c, s.w, CommitJob(s, p, next).w, {})
  {
  }

  /** The row is committed, and the handler either goes on or sees an error. */
  lemma NewRowEffect(c: Config, s: State, p: FileName, next: Ingest)
    requires WorldOk(c, s.w) && p in s.w.ingests && s.w.ingests[p].Wrote?
    requires next == Committed(s.w.nextJob) || (next.Undo? && !c.atomicIngest)
    ensures Aside(c, s.w, CommitJob(s, p, next).w, {})
  {
    assert s.w.nextJob in s.w.rows ==> RowOk(c, s.w, s.w.nextJob);
    NewWorld(c, s, p, next);
    NewRowBound(c, s, p, next);
  }

  /** The handler gives up, is cancelled, or hands its job over. */
  lemma LeavingEffect(c: Config, v: World, p: FileName, next: Option<Ingest>)
    requires WorldOk(c, v) && p in v.ingests && (next == None || (next == Some(Undo) && v.ingests[p].Wrote?))
    ensures Aside(c, v, v.(ingests := if next.Some? then v.ingests[p := next.value] else v.ingests - {p}), {})
  {
    var w := v.(ingests := if next.Some? then v.ingests[p := next.value] else v.ingests - {p});
    assert IngestOk(c, v, p);
    forall k | k in w.rows ensures RowOk(c, w, k) {
      assert RowOk(c, v, k);
    }
    forall q | q in w.ingests ensures IngestOk(c, w, q) {
      assert IngestOk(c, v, q);
    }
  }

  lemma UndoEffect(c: Config, v: World, p: FileName, deleted: bool)
    requires WorldOk(c, v) && p in v.ingests && v.ingests[p].Undo?
    ensures Aside(c, v, v.(files := Discarded(v.files, p, deleted), ingests := v.ingests - {p}), {})
  {
    var u := v.(files := Discarded(v.files, p, deleted));
    assert IngestOk(c, v, p);
    FileChange(c, v, p, deleted);
    LeavingEffect(c, u, p, None);
    TwoStepsAside(c, v, u, u.(ingests := v.ingests - {p}));
  }

  /** A file goes, then an ingest entry: together one change that touches no row. */
  lemma TwoStepsAside(c: Config, v: World, u: World, w: World)
    requires Guarantee(c, v, u, {}) && Aside(c, u, w, {}) && u == v.(files := u.files) && w == u.(ingests := w.ingests)
    requires u.files.Keys <= v.files.Keys
    ensures Aside(c, v, w, {})
  {
  }

  lemma LeavingWorld(c: Config, s: State, a: IngestAct)
    requires WorldOk(c, s.w) && IngestEnabled(c, s, a)
    requires a.CommitFails? || a.Rollback? || a.Enqueue? || a.Gone?
    ensures Aside(c, s.w, ApplyIngest(c, s, a).w, {})
  {
    if a.Rollback? {
      UndoEffect(c, s.w, a.p, a.deleted);
    } else {
      LeavingEffect(c, s.w, a.p, if a.CommitFails? then Some(Undo) else None);
    }
  }

  lemma IngestWorld(c: Config, s: State, a: IngestAct)
    requires Orderly(c) && WorldOk(c, s.w) && IngestEnabled(c, s, a)
    ensures Aside(c, s.w, ApplyIngest(c, s, a).w, {})
  {
    if a.Write? {
      WriteEffect(c, s);
    } else if a.Commit? {
      NewRowEffect(c, s, a.p, Committed(s.w.nextJob));
    } else if a.RefreshFails? {
      NewRowEffect(c, s, a.p, Undo);
    } else {
      LeavingWorld(c, s, a);
    }
  }

  /** Whoever holds a job holds a row that was given out. */
  lemma HeldIsOld(c: Config, s: State, j: JobId)
    requires WorldOk(c, s.w) && WorkersOk(c, s) && AllPending(s.w, s.queue) && ReaperOk(s.w, s.rp)
    requires j >= s.w.nextJob
    ensures j !in s.queue && j !in ReaperJobs(s.rp)
    ensures forall i :: 0 <= i < |s.workers| && Holds(s.workers[i]) ==> s.workers[i].job != j
  {
    forall k | k in s.w.rows ensures k < s.w.nextJob {
      assert RowOk(c, s.w, k);
    }
    forall k | k in s.queue ensures k != j {
      QueuedRow(s.w, s.queue, k);
    }
    forall k | k in ReaperJobs(s.rp) ensures k != j {
      ReaperRow(s.w, s.rp, k);
    }
    forall i | 0 <= i < |s.workers| && Holds(s.workers[i]) ensures s.workers[i].job != j {
      assert WorkerOk(c, s.w, s.workers[i]);
      HeldRow(c, s.w, s.workers[i]);
    }
  }

  lemma CommitKeepsHolder(c: Config, s: State, s': State, p: FileName)
    requires WorldOk(c, s.w) && WorkersOk(c, s) && AllPending(s.w, s.queue) && ReaperOk(s.w, s.rp) && OneHolder(s)
    requires p in s.w.ingests && s.w.ingests[p].Wrote? && s' == CommitJob(s, p, Committed(s.w.nextJob))
    ensures OneHolder(s')
  {
    HeldIsOld(c, s, s.w.nextJob);
    forall j | AboutToEnqueue(s'.w, j) && j != s.w.nextJob ensures AboutToEnqueue(s.w, j) {
      var q :| q in s'.w.ingests && s'.w.ingests[q] == Committed(j);
      assert q in s.w.ingests && s.w.ingests[q] == Committed(j);
    }
  }

  lemma EnqueueKeepsHolder(c: Config, s: State, s': State, p: FileName)
    requires WorldOk(c, s.w) && OneHolder(s) && p in s.w.ingests && s.w.ingests[p].Committed?
    requires s'.queue == s.queue + [s.w.ingests[p].job] && s'.w.ingests == s.w.ingests - {p}
    requires s'.rp == s.rp && s'.workers == s.workers
    ensures OneHolder(s')
  {
    var j := s.w.ingests[p].job;
    assert AboutToEnqueue(s.w, j);
    assert IngestOk(c, s.w, p);
    forall k | AboutToEnqueue(s'.w, k) ensures AboutToEnqueue(s.w, k) && k != j {
      var q :| q in s'.w.ingests && s'.w.ingests[q] == Committed(k);
      assert q in s.w.ingests && s.w.ingests[q] == Committed(k);
      assert IngestOk(c, s.w, q);
    }
  }

  lemma OtherIngestKeepsHolder(c: Config, s: State, s': State)
    requires OneHolder(s) && s'.queue == s.queue && s'.rp == s.rp && s'.workers == s.workers
    requires forall p :: p in s'.w.ingests && s'.w.ingests[p].Committed? ==> p in s.w.ingests && s.w.ingests[p] == s'.w.ingests[p]
    ensures OneHolder(s')
  {
    forall k | AboutToEnqueue(s'.w, k) ensures AboutToEnqueue(s.w, k) {
      var q :| q in s'.w.ingests && s'.w.ingests[q] == Committed(k);
      assert q in s.w.ingests && s.w.ingests[q] == Committed(k);
    }
  }

  lemma IngestHolder(c: Config, s: State, a: IngestAct)
    requires Orderly(c) && WorldOk(c, s.w) && WorkersOk(c, s) && AllPending(s.w, s.queue) && ReaperOk(s.w, s.rp)
    requires OneHolder(s) && IngestEnabled(c, s, a)
    ensures OneHolder(ApplyIngest(c, s, a))
  {
    var s' := ApplyIngest(c, s, a);
    if a.Commit? {
      CommitKeepsHolder(c, s, s', a.p);
    } else if a.Enqueue? {
      EnqueueKeepsHolder(c, s, s', a.p);
    } else {
      OtherIngestKeepsHolder(c, s, s');
    }
  }

  lemma IngestQueue(c: Config, s: State, a: IngestAct)
    requires Orderly(c) && WorldOk(c, s.w) && AllPending(s.w, s.queue) && IngestEnabled(c, s, a)
    requires AllPending(ApplyIngest(c, s, a).w, s.queue)
    ensures var s' := ApplyIngest(c, s, a); AllPending(s'.w, s'.queue)
    ensures var s' := ApplyIngest(c, s, a);
      s'.unfinished - |s'.queue| == s.unfinished - |s.queue| && s'.workers == s.workers && s'.rec == s.rec
      && s'.cln == s.cln && s'.rp == s.rp && s'.up == s.up == true
  {
    var s' := ApplyIngest(c, s, a);
    if a.Enqueue? {
      assert IngestOk(c, s.w, a.p);
    }
  }

  lemma IngestKeeps(c: Config, s: State, a: IngestAct)
    requires Orderly(c) && Inv(c, s) && IngestEnabled(c, s, a)
    ensures Keeps(c, s, ApplyIngest(c, s, a), {})
  {
    var s' := ApplyIngest(c, s, a);
    IngestWorld(c, s, a);
    AsideWorkers(c, s, s'.w, {});
    AsideReaper(c, s.w, s'.w, {}, s.rp);
    FrameReconciler(c, s.w, s'.w, {}, s.rec);
    FrameCleaner(c, s.w, s'.w, {}, s.cln);
    IngestHolder(c, s, a);
    IngestQueue(c, s, a);
  }

  // ------------------------------------------------------------------ reconciler and cleaner

  lemma SameHolders(s: State, s': State)
    requires OneHolder(s)
    requires s'.queue == s.queue && s'.rp == s.rp && s'.workers == s.workers && s'.w.ingests == s.w.ingests
    ensures OneHolder(s')
  {
    assert forall k :: AboutToEnqueue(s'.w, k) <==> AboutToEnqueue(s.w, k);
  }

  /** What everybody relies on survives. */
  lemma AsideFrames(c: Config, s: State, w: World, js: set<JobId>)
    requires WorldOk(c, s.w) && WorkersOk(c, s) && AllPending(s.w, s.queue)
    requires ReaperOk(s.w, s.rp) && ReconcilerOk(c, s.w, s.rec) && CleanerOk(c, s.w, s.cln)
    requires Aside(c, s.w, w, js)
    ensures WorkersOk(c, s.(w := w)) && AllPending(w, s.queue)
    ensures ReaperOk(w, s.rp) && ReconcilerOk(c, w, s.rec) && CleanerOk(c, w, s.cln)
  {
    AsideWorkers(c, s, w, js);
    AsideReaper(c, s.w, w, js, s.rp);
    FrameReconciler(c, s.w, w, js, s.rec);
    FrameCleaner(c, s.w, w, js, s.cln);
  }

  /** Everything but the world and the two background loops is as before. */
  lemma AsideInv(c: Config, s: State, t: State)
    requires |s.workers| == c.workers && s.unfinished == |s.queue| + Busy(s.workers) && BootOk(s) && s.up
    requires t == s.(w := t.w, rec := t.rec, cln := t.cln)
    requires WorldOk(c, t.w) && WorkersOk(c, t) && AllPending(t.w, t.queue) && OneHolder(t)
    requires ReaperOk(t.w, t.rp) && ReconcilerOk(c, t.w, t.rec) && CleanerOk(c, t.w, t.cln)
    ensures Inv(c, t)
  {
  }

  lemma AsideRest(c: Config, s: State, w: World, rec: Reconciler, cln: Cleaner, t: State)
    requires |s.workers| == c.workers && s.unfinished == |s.queue| + Busy(s.workers) && BootOk(s) && s.up && OneHolder(s)
    requires w.ingests == s.w.ingests && t == s.(w := w, rec := rec, cln := cln)
    requires WorldOk(c, w) && WorkersOk(c, s.(w := w)) && AllPending(w, s.queue) && ReaperOk(w, s.rp)
    requires ReconcilerOk(c, w, rec) && CleanerOk(c, w, cln)
    ensures Inv(c, t)
  {
    SameHolders(s, t);
    assert WorkersOk(c, t);
    AsideInv(c, s, t);
  }

  /** An event of somebody who holds no job and has settled its own next point. */
  lemma AsideKeeps(c: Config, s: State, w: World, rec: Reconciler, cln: Cleaner, js: set<JobId>)
    requires Inv(c, s) && s.up && Aside(c, s.w, w, js) && w.ingests == s.w.ingests
    requires rec == s.rec || ReconcilerOk(c, w, rec)
    requires cln == s.cln || CleanerOk(c, w, cln)
    ensures Keeps(c, s, s.(w := w, rec := rec, cln := cln), js)
  {
    var t := s.(w := w, rec := rec, cln := cln);
    AsideFrames(c, s, w, js);
    assert ReconcilerOk(c, w, rec);
    assert CleanerOk(c, w, cln);
    AsideRest(c, s, w, rec, cln, t);
  }

  lemma TailParcels(w: World, todo: seq<Parcel>)
    requires todo != [] && ParcelsOk(w, todo)
    ensures ParcelOk(w, todo[0]) && ParcelsOk(w, todo[1..])
  {
    assert ParcelOk(w, todo[0]);
    forall k | 0 <= k < |todo[1..]| ensures ParcelOk(w, todo[1..][k]) {
      assert ParcelOk(w, todo[k + 1]);
    }
  }

  lemma DeliverParcel(c: Config, s: State, a: ReconcilerAct)
    requires WorldOk(c, s.w) && ReconcilerOk(c, s.w, s.rec) && ReconcilerEnabled(c, s, a) && a.Redeliver?
    ensures var s' := ApplyReconciler(c, s, a); Aside(c, s.w, s'.w, {}) && ReconcilerOk(c, s'.w, s'.rec)
  {
    var pc := s.rec.parcel;
    var rep := Success(pc.artefact, s.rec.full);
    var w := s.w.(spring := Posted(s.w.spring, pc.job, rep, a.landed));
    SpringChange(c, s.w, pc.job, rep, a.landed);
    FrameParcels(c, s.w, w, {}, s.rec.todo);
    FrameSender(c, s.w, w, {}, pc.job, pc.path, pc.artefact);
  }

  lemma ConfirmParcel(c: Config, s: State)
    requires WorldOk(c, s.w) && ReconcilerOk(c, s.w, s.rec) && ReconcilerEnabled(c, s, Confirm)
    ensures var s' := ApplyReconciler(c, s, Confirm);
      Aside(c, s.w, s'.w, {s.rec.parcel.job}) && ReconcilerOk(c, s'.w, s'.rec)
  {
    var pc := s.rec.parcel;
    MarkChange(c, s.w, pc.job, pc.path, pc.artefact, s.rec.ok);
    FrameParcels(c, s.w, s.w.(rows := MarkRows(s.w.rows, pc.job, s.rec.ok, s.w.now)), {pc.job}, s.rec.todo);
  }

  lemma DropsParcel(c: Config, s: State, deleted: bool)
    requires WorldOk(c, s.w) && ReconcilerOk(c, s.w, s.rec) && ReconcilerEnabled(c, s, DropParcel(deleted))
    ensures var s' := ApplyReconciler(c, s, DropParcel(deleted)); Aside(c, s.w, s'.w, {}) && ReconcilerOk(c, s'.w, s'.rec)
  {
    FileChange(c, s.w, s.rec.path, deleted);
    FrameParcels(c, s.w, s.w.(files := Discarded(s.w.files, s.rec.path, deleted)), {}, s.rec.todo);
  }

  lemma PicksParcel(c: Config, s: State, a: ReconcilerAct)
    requires WorldOk(c, s.w) && ReconcilerOk(c, s.w, s.rec) && ReconcilerEnabled(c, s, a)
    requires a.Scan? || a.Reload? || a.StopScan?
    ensures var s' := ApplyReconciler(c, s, a); Aside(c, s.w, s'.w, {}) && ReconcilerOk(c, s'.w, s'.rec)
  {
    SameWorld(c, s.w);
    if a.Scan? {
      forall k | 0 <= k < |a.sel| ensures ParcelOk(s.w, a.sel[k]) {
        assert ParcelOf(c, s, a.sel[k]) && RowOk(c, s.w, a.sel[k].job);
      }
    } else if a.Reload? {
      TailParcels(s.w, s.rec.todo);
      var j := s.rec.todo[0].job;
      if j in s.w.rows {
        assert RowOk(c, s.w, j);
      }
    }
  }

  lemma ReconcilerKeeps(c: Config, s: State, a: ReconcilerAct) returns (js: set<JobId>)
    requires Orderly(c) && Inv(c, s) && ReconcilerEnabled(c, s, a)
    ensures Keeps(c, s, ApplyReconciler(c, s, a), js)
  {
    js := {};
    match a {
      case Redeliver(_, _) => DeliverParcel(c, s, a);
      case Confirm =>
        js := {s.rec.parcel.job};
        ConfirmParcel(c, s);
      case DropParcel(deleted) => DropsParcel(c, s, deleted);
      case _ => PicksParcel(c, s, a);
    }
    var s' := ApplyReconciler(c, s, a);
    AsideKeeps(c, s, s'.w, s'.rec, s.cln, js);
  }

  /** The age test protects whatever was committed after the keep query. */
  lemma SweepStart(c: Config, s: State)
    requires Orderly(c) && WorldOk(c, s.w) && CleanerOk(c, s.w, s.cln) && s.cln.Kept?
    ensures CleanerOk(c, s.w, Sweeping(s.cln.keep, s.w.now - c.orphanAge))
  {
    if Durable(c) {
      forall p | p in s.w.ingests && s.w.ingests[p].Wrote? && p in s.w.files
        ensures s.w.files[p] >= s.w.now - c.orphanAge
      {
        assert IngestOk(c, s.w, p);
      }
    }
  }

  lemma SweptIsDead(c: Config, s: State, p: FileName)
    requires WorldOk(c, s.w) && CleanerOk(c, s.w, s.cln) && CleanerEnabled(c, s, SweepOne(p))
    ensures Durable(c) ==> DeadPath(s.w, p)
  {
    if p in s.w.ingests {
      assert IngestOk(c, s.w, p);
    }
  }

  lemma PurgeAside(c: Config, w: World, gone: set<JobId>)
    requires WorldOk(c, w) && forall j :: j in gone ==> j in w.rows && Terminal(w.rows[j])
    ensures Aside(c, w, w.(rows := w.rows - gone), gone)
  {
    PurgeChange(c, w, gone);
  }

  lemma PurgeKeeps(c: Config, s: State, gone: set<JobId>)
    requires Inv(c, s) && s.up && forall j :: j in gone ==> j in s.w.rows && Terminal(s.w.rows[j])
    ensures Keeps(c, s, s.(w := s.w.(rows := s.w.rows - gone), cln := Purged), gone)
  {
    PurgeAside(c, s.w, gone);
    AsideKeeps(c, s, s.w.(rows := s.w.rows - gone), s.rec, Purged, gone);
  }

  lemma SweepAside(c: Config, s: State, p: FileName)
    requires WorldOk(c, s.w) && CleanerOk(c, s.w, s.cln) && CleanerEnabled(c, s, SweepOne(p))
    ensures Aside(c, s.w, s.w.(files := s.w.files - {p}), {})
  {
    SweptIsDead(c, s, p);
    FileChange(c, s.w, p, true);
  }

  lemma SweepOneKeeps(c: Config, s: State, p: FileName)
    requires Inv(c, s) && CleanerEnabled(c, s, SweepOne(p))
    ensures Keeps(c, s, ApplyCleaner(c, s, SweepOne(p)), {})
  {
    SweepAside(c, s, p);
    AsideKeeps(c, s, s.w.(files := s.w.files - {p}), s.rec, s.cln, {});
  }

  /** The cleaner only moves on. */
  lemma CleanerMoves(c: Config, s: State, cln: Cleaner)
    requires Inv(c, s) && s.up && CleanerOk(c, s.w, cln)
    ensures Keeps(c, s, s.(cln := cln), {})
  {
    SameWorld(c, s.w);
    AsideKeeps(c, s, s.w, s.rec, cln, {});
  }

  lemma CleanerReads(c: Config, s: State, a: CleanerAct)
    requires Orderly(c) && Inv(c, s) && CleanerEnabled(c, s, a) && (a.ListKeep? || a.SweepBegin? || a.StopSweep?)
    ensures Keeps(c, s, ApplyCleaner(c, s, a), {})
  {
    var cln := ApplyCleaner(c, s, a).cln;
    if a.SweepBegin? {
      SweepStart(c, s);
    }
    CleanerMoves(c, s, cln);
    assert ApplyCleaner(c, s, a) == s.(cln := cln);
  }

  /** What a cleaner event deletes from the table. */
  function Deleted(c: Config, s: State, a: CleanerAct): set<JobId> {
    if a.Purge? then Expired(s.w.rows, s.w.now - c.retention) else {}
  }

  lemma CleanerKeeps(c: Config, s: State, a: CleanerAct)
    requires Orderly(c) && Inv(c, s) && CleanerEnabled(c, s, a)
    ensures Keeps(c, s, ApplyCleaner(c, s, a), Deleted(c, s, a))
  {
    if a.Purge? {
      PurgeKeeps(c, s, Deleted(c, s, a));
    } else if a.SweepOne? {
      SweepOneKeeps(c, s, a.p);
    } else {
      CleanerReads(c, s, a);
    }
  }
}
