/**
 The invariant of the job lifecycle and the rely/guarantee vocabulary it is preserved with.

 `WorkerOk`, `ReconcilerOk`, `ReaperOk`, `CleanerOk` say what an actor may rely on at each of its
 points; `Guarantee` says how far any single event may move the world.  `Frame*` lemmas show that
 reliance survives other actors' events, so each event only has to re-establish its own actor.
 */
module ProtocolInvariant {
  import opened Wrappers
  import opened JobProtocol

  // ------------------------------------------------------------------ assumptions

  /** What ownership, reports and bounds need: workers wait for recovery, and the reaper waits for workers. */
  predicate Orderly(c: Config) {
    c.gated && 2 * c.attemptCap + c.overhead <= c.stuckAfter
  }

  /** What files need on top: no error reaches ingest after its commit, and a sweep waits for late commits. */
  predicate Durable(c: Config) {
    c.atomicIngest && c.ingestGap + c.sweepGap <= c.orphanAge
  }

  /** Both; `ProtocolExactly` shows which results need which part. */
  predicate Sound(c: Config) {
    Orderly(c) && Durable(c)
  }

  // ------------------------------------------------------------------ the world

  /** Spring holds artefact `a` for job `j`, with its signal arrays where files are durable. */
  predicate Reported(c: Config, w: World, j: JobId, a: Artefact) {
    j in w.spring && w.spring[j].Success? && w.spring[j].artefact == a && (Durable(c) ==> w.spring[j].full)
  }

  predicate RowOk(c: Config, w: World, j: JobId)
    requires j in w.rows
  {
    var r := w.rows[j];
    && j < w.nextJob && r.path < w.nextFile && r.requeues <= c.maxRequeue && r.updated <= w.now
    && (Durable(c) && Active(r) ==> r.path in w.files)
    && (r.status.Pending? || r.status.Running? ==> r.result.None? && j !in w.spring)
    && (r.status.Delivering? ==> r.result.Some? && (j in w.spring ==> Reported(c, w, j, r.result.value)))
    && (r.status.Done? && r.result.Some? ==> Reported(c, w, j, r.result.value))
    && (r.status.Done? && r.result.None? ==> j !in w.spring)
    && (r.status.Failed? && j in w.spring ==>
          if r.result.None? then w.spring[j].Notice? else w.spring[j].Success? && w.spring[j].artefact == r.result.value)
  }

  ghost predicate NoRow(w: World, p: FileName) {
    forall j :: j in w.rows ==> w.rows[j].path != p
  }

  ghost predicate IngestOk(c: Config, w: World, p: FileName)
    requires p in w.ingests
  {
    && p < w.nextFile
    && match w.ingests[p] {
         case Wrote(t) => (Durable(c) ==> p in w.files && w.files[p] == t) && w.now <= t + c.ingestGap && NoRow(w, p)
         case Committed(j) => j in w.rows && w.rows[j].status.Pending? && w.rows[j].path == p
         case Undo => c.atomicIngest ==> NoRow(w, p)
       }
  }

  ghost predicate WorldOk(c: Config, w: World) {
    && (forall j :: j in w.rows ==> RowOk(c, w, j))
    && (forall j, k :: j in w.rows && k in w.rows && j != k ==> w.rows[j].path != w.rows[k].path)
    && (forall j :: j in w.spring ==> j < w.nextJob)
    && (forall p :: p in w.files ==> p < w.nextFile && w.files[p] <= w.now)
    && (forall p :: p in w.ingests ==> IngestOk(c, w, p))
  }

  /** No unfinished job needs file `p`, and none ever will. */
  ghost predicate DeadPath(w: World, p: FileName) {
    && p < w.nextFile
    && (forall j :: j in w.rows && w.rows[j].path == p ==> Terminal(w.rows[j]))
    && (p in w.ingests ==> w.ingests[p].Undo?)
  }

  // ------------------------------------------------------------------ what one event may do

  /** The statuses a row may have had before `to`. */
  predicate Comes(from: Status, to: Status) {
    match to
    case Pending => from.Running?
    case Running => from.Pending?
    case Delivering => from.Running?
    case Done => from.Running? || from.Delivering?
    case Failed => from.Pending? || from.Running? || from.Delivering?
  }

  predicate RowStep(c: Config, r: Row, t: Row) {
    || t == r
    || (&& t.path == r.path && Comes(r.status, t.status)
        && (if t.status.Pending? then r.requeues < c.maxRequeue && t.requeues == r.requeues + 1 else t.requeues == r.requeues)
        && (if t.status.Delivering? then t.result.Some? else t.result == r.result))
  }

  predicate IngestStep(a: Ingest, b: Ingest) {
    a == b || (a.Wrote? && !b.Wrote?)
  }

  ghost predicate RowsGuarantee(c: Config, v: World, w: World, js: set<JobId>) {
    && (forall j :: j in w.rows && j in v.rows ==> RowStep(c, v.rows[j], w.rows[j]) && (j !in js ==> w.rows[j] == v.rows[j]))
    && (forall j :: j in w.rows && j !in v.rows ==>
          j >= v.nextJob && w.rows[j].status.Pending? && w.rows[j].requeues == 0
          && w.rows[j].path in v.ingests && v.ingests[w.rows[j].path].Wrote?)
    && (forall j :: j in v.rows && j !in w.rows ==> j in js && Terminal(v.rows[j]))
  }

  ghost predicate FilesGuarantee(c: Config, v: World, w: World) {
    && (forall p :: p in w.files ==> (p in v.files && w.files[p] == v.files[p]) || p >= v.nextFile)
    && (Durable(c) ==> forall p :: p in v.files && p !in w.files ==> DeadPath(v, p))
  }

  ghost predicate IngestsGuarantee(v: World, w: World) {
    forall p :: p in w.ingests ==>
      if p in v.ingests then IngestStep(v.ingests[p], w.ingests[p])
      else p >= v.nextFile && w.ingests[p] == Wrote(w.now)
  }

  /** An event moves the world from `v` to `w`, touching only the existing rows in `js`. */
  ghost predicate Guarantee(c: Config, v: World, w: World, js: set<JobId>) {
    && v.now == w.now && v.nextJob <= w.nextJob && v.nextFile <= w.nextFile
    && RowsGuarantee(c, v, w, js)
    && FilesGuarantee(c, v, w)
    && IngestsGuarantee(v, w)
    && (forall j :: j in v.spring ==> j in w.spring && w.spring[j] == v.spring[j])
  }

  // ------------------------------------------------------------------ what each actor relies on

  predicate HasRow(w: World, j: JobId, st: Status, p: FileName) {
    j in w.rows && w.rows[j].status == st && w.rows[j].path == p
  }

  /** Somebody about to deliver artefact `a` of job `j`. */
  ghost predicate Sender(w: World, j: JobId, p: FileName, a: Artefact) {
    && j < w.nextJob && p < w.nextFile
    && (j in w.rows ==>
          && w.rows[j].path == p && w.rows[j].result == Some(a)
          && (w.rows[j].status.Delivering? || Terminal(w.rows[j])))
    && (j !in w.rows ==> DeadPath(w, p))
  }

  /** Somebody about to report that job `j` failed. */
  ghost predicate Notifier(w: World, j: JobId, p: FileName) {
    && j < w.nextJob && DeadPath(w, p)
    && (j in w.rows ==> w.rows[j].status.Failed? && w.rows[j].result.None?)
  }

  function Attempts(c: Config, tries: nat): int {
    if tries == 0 then 0 else if tries == 1 then c.attemptCap else 2 * c.attemptCap
  }

  /** The time spent RUNNING is accounted for by attempts and overhead. */
  predicate TimeOk(c: Config, wk: Worker, updated: int, now: int)
    requires wk.Rca?
  {
    && updated <= wk.since <= now
    && wk.since - updated <= wk.other + Attempts(c, wk.tries)
    && wk.tries <= (if wk.phase.Over? then 2 else 1)
    && wk.other <= c.overhead
    && WithinBounds(c, wk, now)
  }

  ghost predicate WorkerOk(c: Config, w: World, wk: Worker) {
    match wk
    case Idle => true
    case Fetched(j) => j in w.rows && w.rows[j].status.Pending?
    case Restoring(j, p) => HasRow(w, j, Pending, p)
    case Ready(j, p) => HasRow(w, j, Pending, p)
    case Missing(j, p) => !Durable(c) && HasRow(w, j, Pending, p)
    case Rca(j, p, _, _, _, _) => HasRow(w, j, Running, p) && TimeOk(c, wk, w.rows[j].updated, w.now)
    case Sending(j, p, a) => Sender(w, j, p, a)
    case Finalizing(j, p, a, ok) => Sender(w, j, p, a) && (ok ==> j in w.spring)
    case Noticing(j, p) => Notifier(w, j, p)
    case Discarding(p) => DeadPath(w, p)
  }

  ghost predicate ParcelOk(w: World, pc: Parcel) {
    Sender(w, pc.job, pc.path, pc.artefact)
  }

  ghost predicate ParcelsOk(w: World, todo: seq<Parcel>) {
    forall k :: 0 <= k < |todo| ==> ParcelOk(w, todo[k])
  }

  ghost predicate ReconcilerOk(c: Config, w: World, rec: Reconciler) {
    match rec
    case Resting => true
    case Walking(todo) => ParcelsOk(w, todo)
    case Loaded(pc, full, todo) =>
      ParcelsOk(w, todo) && ParcelOk(w, pc)
      && (Durable(c) && !full && pc.job in w.rows ==> !w.rows[pc.job].status.Delivering?)
    case Marking(pc, ok, todo) => ParcelsOk(w, todo) && ParcelOk(w, pc) && (ok ==> pc.job in w.spring)
    case Dropping(p, todo) => ParcelsOk(w, todo) && DeadPath(w, p)
  }

  ghost predicate PendingRow(w: World, j: JobId) {
    j in w.rows && w.rows[j].status.Pending?
  }

  ghost predicate ClaimOk(w: World, cl: Claim) {
    HasRow(w, cl.job, Running, cl.path) && w.rows[cl.job].requeues == cl.requeues
  }

  ghost predicate FailsOk(w: World, fail: seq<Claim>) {
    forall k :: 0 <= k < |fail| ==> Notifier(w, fail[k].job, fail[k].path)
  }

  ghost predicate AllPending(w: World, ids: seq<JobId>) {
    forall k :: 0 <= k < |ids| ==> PendingRow(w, ids[k])
  }

  ghost predicate ReaperOk(w: World, rp: Reaper) {
    match rp
    case AtBoot => true
    case Listed(ids) => AllPending(w, ids)
    case Waiting => true
    case Selected(claims) => forall k :: 0 <= k < |claims| ==> ClaimOk(w, claims[k])
    case Requeueing(enq, fail) => AllPending(w, enq) && FailsOk(w, fail)
    case Reporting(fail) => FailsOk(w, fail)
    case Discard(fail) => FailsOk(w, fail)
  }

  /** Files of unfinished jobs outside `keep` were written at `bound` or later. */
  ghost predicate Young(w: World, keep: set<FileName>, bound: int) {
    forall j :: j in w.rows && Active(w.rows[j]) && w.rows[j].path !in keep && w.rows[j].path in w.files ==>
      w.files[w.rows[j].path] >= bound
  }

  ghost predicate CleanerOk(c: Config, w: World, cln: Cleaner) {
    match cln
    case Kept(keep, asked) =>
      && asked <= w.now <= asked + c.sweepGap
      && (Durable(c) ==> Young(w, keep, asked - c.ingestGap))
    case Sweeping(keep, cutoff) =>
      && cutoff <= w.now
      && (Durable(c) ==> Young(w, keep, cutoff))
      && (Durable(c) ==> forall p :: p in w.ingests && w.ingests[p].Wrote? && p in w.files ==> w.files[p] >= cutoff)
    case _ => true
  }

  // ------------------------------------------------------------------ one holder per job

  /** The job a worker owns: from `get` until it commits the end of the analysis. */
  predicate Holds(wk: Worker) {
    wk.Fetched? || wk.Restoring? || wk.Ready? || wk.Missing? || wk.Rca?
  }

  function Jobs(claims: seq<Claim>): (r: seq<JobId>)
    ensures |r| == |claims| && forall k :: 0 <= k < |r| ==> r[k] == claims[k].job
  {
    seq(|claims|, k requires 0 <= k < |claims| => claims[k].job)
  }

  /** The jobs the reaper is about to hand over or rewrite. */
  function ReaperJobs(rp: Reaper): seq<JobId> {
    match rp
    case Listed(ids) => ids
    case Selected(claims) => Jobs(claims)
    case Requeueing(enq, _) => enq
    case _ => []
  }

  ghost predicate AboutToEnqueue(w: World, j: JobId) {
    exists p :: p in w.ingests && w.ingests[p] == Committed(j)
  }

  /** Ingest handler, queue slot, worker, reaper list: a job is with at most one of them, once. */
  ghost predicate OneHolder(s: State) {
    && NoDup(s.queue) && NoDup(ReaperJobs(s.rp))
    && (forall a, b :: 0 <= a < b < |s.workers| && Holds(s.workers[a]) && Holds(s.workers[b]) ==>
          s.workers[a].job != s.workers[b].job)
    && (forall a :: 0 <= a < |s.workers| && Holds(s.workers[a]) ==>
          && s.workers[a].job !in s.queue && s.workers[a].job !in ReaperJobs(s.rp)
          && !AboutToEnqueue(s.w, s.workers[a].job))
    && (forall j :: j in s.queue ==> j !in ReaperJobs(s.rp) && !AboutToEnqueue(s.w, j))
    && (forall j :: j in ReaperJobs(s.rp) ==> !AboutToEnqueue(s.w, j))
  }

  // ------------------------------------------------------------------ startup recovery

  /** Before startup is over nobody else runs, and recovery loses no unfinished row. */
  ghost predicate BootOk(s: State) {
    if s.up then !s.rp.AtBoot? && !s.rp.Listed?
    else
      && (forall i :: 0 <= i < |s.workers| ==> s.workers[i].Idle?)
      && s.w.ingests == map[] && s.rec.Resting? && s.cln.Quiet? && !s.rp.Waiting?
      && (s.rp.AtBoot? ==> s.queue == [])
      && (!s.rp.AtBoot? && !s.rp.Selected? ==>
            forall j :: PendingRow(s.w, j) ==> j in s.queue || j in ReaperJobs(s.rp))
      && (s.rp.Selected? ==> forall j :: PendingRow(s.w, j) ==> j in s.queue)
      && (s.rp.Selected? ==> forall j :: j in s.w.rows && s.w.rows[j].status.Running? ==> j in ReaperJobs(s.rp))
      && (s.rp.Requeueing? || s.rp.Reporting? || s.rp.Discard? ==>
            forall j :: j in s.w.rows ==> !s.w.rows[j].status.Running?)
  }

  // ------------------------------------------------------------------ queue accounting

  function Busy(ws: seq<Worker>): nat {
    if ws == [] then 0 else (if ws[0].Idle? then 0 else 1) + Busy(ws[1..])
  }

  lemma {:induction false} BusyUpdate(ws: seq<Worker>, i: nat, wk: Worker)
    requires i < |ws|
    ensures Busy(ws[i := wk]) == Busy(ws) - (if ws[i].Idle? then 0 else 1) + (if wk.Idle? then 0 else 1)
  {
    if i == 0 {
      assert ws[0 := wk][1..] == ws[1..];
    } else {
      BusyUpdate(ws[1..], i - 1, wk);
      assert ws[i := wk][1..] == ws[1..][i - 1 := wk];
    }
  }

  lemma {:induction false} BusyZero(ws: seq<Worker>)
    ensures Busy(ws) == 0 <==> forall i :: 0 <= i < |ws| ==> ws[i].Idle?
  {
    if ws != [] {
      BusyZero(ws[1..]);
      assert forall i :: 0 <= i < |ws[1..]| ==> ws[1..][i] == ws[i + 1];
      assert forall i :: 1 <= i < |ws| ==> ws[i] == ws[1..][i - 1];
    }
  }

  lemma {:induction false} BusyBound(ws: seq<Worker>)
    ensures Busy(ws) <= |ws|
  {
    if ws != [] {
      BusyBound(ws[1..]);
    }
  }

  // ------------------------------------------------------------------ the invariant

  ghost predicate WorkersOk(c: Config, s: State) {
    forall i :: 0 <= i < |s.workers| ==> WorkerOk(c, s.w, s.workers[i])
  }

  ghost predicate Inv(c: Config, s: State) {
    && |s.workers| == c.workers
    && WorldOk(c, s.w)
    && WorkersOk(c, s)
    && AllPending(s.w, s.queue)
    && ReconcilerOk(c, s.w, s.rec)
    && ReaperOk(s.w, s.rp)
    && CleanerOk(c, s.w, s.cln)
    && OneHolder(s)
    && BootOk(s)
    && s.unfinished == |s.queue| + Busy(s.workers)
  }

  // ------------------------------------------------------------------ frames

  lemma FrameDeadPath(c: Config, v: World, w: World, js: set<JobId>, p: FileName)
    requires Guarantee(c, v, w, js) && DeadPath(v, p)
    ensures DeadPath(w, p)
  {
  }

  lemma FrameSender(c: Config, v: World, w: World, js: set<JobId>, j: JobId, p: FileName, a: Artefact)
    requires WorldOk(c, v) && Guarantee(c, v, w, js) && Sender(v, j, p, a)
    ensures Sender(w, j, p, a)
    ensures j in v.rows && j in w.rows && !v.rows[j].status.Delivering? ==> !w.rows[j].status.Delivering?
  {
    if j in v.rows {
      if j in w.rows {
        assert RowStep(c, v.rows[j], w.rows[j]);
      } else {
        assert Terminal(v.rows[j]);
        if p in v.ingests {
          assert IngestOk(c, v, p);
        }
        assert DeadPath(v, p);
        FrameDeadPath(c, v, w, js, p);
      }
    } else {
      FrameDeadPath(c, v, w, js, p);
    }
  }

  lemma FrameNotifier(c: Config, v: World, w: World, js: set<JobId>, j: JobId, p: FileName)
    requires Guarantee(c, v, w, js) && Notifier(v, j, p)
    ensures Notifier(w, j, p)
  {
    FrameDeadPath(c, v, w, js, p);
    if j in v.rows && j in w.rows {
      assert RowStep(c, v.rows[j], w.rows[j]);
    }
  }

  lemma FrameWorker(c: Config, v: World, w: World, js: set<JobId>, wk: Worker)
    requires WorldOk(c, v) && Guarantee(c, v, w, js) && WorkerOk(c, v, wk)
    requires Holds(wk) ==> wk.job !in js
    ensures WorkerOk(c, w, wk)
  {
    match wk
    case Sending(j, p, a) => FrameSender(c, v, w, js, j, p, a);
    case Finalizing(j, p, a, _) => FrameSender(c, v, w, js, j, p, a);
    case Noticing(j, p) => FrameNotifier(c, v, w, js, j, p);
    case Discarding(p) => FrameDeadPath(c, v, w, js, p);
    case Idle =>
    case _ => assert w.rows[wk.job] == v.rows[wk.job];
  }

  lemma FrameParcels(c: Config, v: World, w: World, js: set<JobId>, todo: seq<Parcel>)
    requires WorldOk(c, v) && Guarantee(c, v, w, js) && ParcelsOk(v, todo)
    ensures ParcelsOk(w, todo)
  {
    forall k | 0 <= k < |todo| ensures ParcelOk(w, todo[k]) {
      assert ParcelOk(v, todo[k]);
      FrameSender(c, v, w, js, todo[k].job, todo[k].path, todo[k].artefact);
    }
  }

  lemma FrameReconciler(c: Config, v: World, w: World, js: set<JobId>, rec: Reconciler)
    requires WorldOk(c, v) && Guarantee(c, v, w, js) && ReconcilerOk(c, v, rec)
    ensures ReconcilerOk(c, w, rec)
  {
    match rec
    case Resting =>
    case Walking(todo) => FrameParcels(c, v, w, js, todo);
    case Loaded(pc, _, todo) =>
      FrameParcels(c, v, w, js, todo);
      FrameSender(c, v, w, js, pc.job, pc.path, pc.artefact);
    case Marking(pc, _, todo) =>
      FrameParcels(c, v, w, js, todo);
      FrameSender(c, v, w, js, pc.job, pc.path, pc.artefact);
    case Dropping(p, todo) =>
      FrameParcels(c, v, w, js, todo);
      FrameDeadPath(c, v, w, js, p);
  }

  lemma FrameFails(c: Config, v: World, w: World, js: set<JobId>, fail: seq<Claim>)
    requires Guarantee(c, v, w, js) && FailsOk(v, fail)
    ensures FailsOk(w, fail)
  {
    forall k | 0 <= k < |fail| ensures Notifier(w, fail[k].job, fail[k].path) {
      FrameNotifier(c, v, w, js, fail[k].job, fail[k].path);
    }
  }

  lemma FramePending(c: Config, v: World, w: World, js: set<JobId>, ids: seq<JobId>)
    requires Guarantee(c, v, w, js) && AllPending(v, ids)
    requires forall j :: j in ids ==> j !in js
    ensures AllPending(w, ids)
  {
    forall k | 0 <= k < |ids| ensures PendingRow(w, ids[k]) {
      assert PendingRow(v, ids[k]) && ids[k] in ids;
    }
  }

  lemma FrameReaper(c: Config, v: World, w: World, js: set<JobId>, rp: Reaper)
    requires Guarantee(c, v, w, js) && ReaperOk(v, rp)
    requires forall j :: j in ReaperJobs(rp) ==> j !in js
    ensures ReaperOk(w, rp)
  {
    match rp
    case Listed(ids) => FramePending(c, v, w, js, ids);
    case Requeueing(enq, fail) =>
      FramePending(c, v, w, js, enq);
      FrameFails(c, v, w, js, fail);
    case Reporting(fail) => FrameFails(c, v, w, js, fail);
    case Discard(fail) => FrameFails(c, v, w, js, fail);
    case Selected(claims) =>
      forall k | 0 <= k < |claims| ensures ClaimOk(w, claims[k]) {
        assert ClaimOk(v, claims[k]);
        assert Jobs(claims)[k] in ReaperJobs(rp);
      }
    case _ =>
  }

  /** Old files stay young, and a file a new row names was written recently. */
  lemma FrameYoung(c: Config, v: World, w: World, js: set<JobId>, keep: set<FileName>, bound: int)
    requires Durable(c) && WorldOk(c, v) && Guarantee(c, v, w, js) && Young(v, keep, bound)
    requires forall p :: p in v.ingests && v.ingests[p].Wrote? && p in v.files ==> v.files[p] >= bound
    ensures Young(w, keep, bound)
  {
    forall j | j in w.rows && Active(w.rows[j]) && w.rows[j].path !in keep && w.rows[j].path in w.files
      ensures w.files[w.rows[j].path] >= bound
    {
      var p := w.rows[j].path;
      if j in v.rows {
        assert RowOk(c, v, j);
        assert RowStep(c, v.rows[j], w.rows[j]);
        assert v.rows[j].path == p && Active(v.rows[j]) && p < v.nextFile;
      } else {
        assert p in v.ingests && v.ingests[p].Wrote?;
        assert IngestOk(c, v, p);
      }
      assert p in v.files && w.files[p] == v.files[p];
    }
  }

  lemma FrameCleaner(c: Config, v: World, w: World, js: set<JobId>, cln: Cleaner)
    requires WorldOk(c, v) && Guarantee(c, v, w, js) && CleanerOk(c, v, cln)
    requires forall p :: p in w.files && p >= v.nextFile ==> w.files[p] == w.now
    ensures CleanerOk(c, w, cln)
  {
    if Durable(c) && cln.Kept? {
      forall p | p in v.ingests && v.ingests[p].Wrote? && p in v.files ensures v.files[p] >= cln.asked - c.ingestGap {
        assert IngestOk(c, v, p);
      }
      FrameYoung(c, v, w, js, cln.keep, cln.asked - c.ingestGap);
    } else if Durable(c) && cln.Sweeping? {
      FrameYoung(c, v, w, js, cln.keep, cln.cutoff);
    }
  }
}
