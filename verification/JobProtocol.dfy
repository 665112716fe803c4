/**
 The job lifecycle as a step system.

 Ingest handlers, the worker pool, the reaper, the delivery reconciler, the cleaner and process
 crashes act on shared rows, files and Spring.  One event is what one actor does between two awaits;
 everything an actor does not decide itself (answers, artefacts, query orders, failures) is an event
 parameter, so a run is a sequence of events and `Apply` is a function.
 */
module JobProtocol {
  import opened Wrappers

  type JobId = nat      // auto-increment primary key
  type FileName = nat   // uuid file names, fresh by construction
  type Artefact = int   // a validated RCA result

  /** Settings, timing bounds and two switches for what the code leaves to luck. */
  datatype Config = Config(
    workers: nat,       // rca_worker_concurrency
    maxRequeue: nat,    // max_job_requeue
    attemptCap: nat,    // rca_overall_timeout_seconds
    overhead: nat,      // longest time spent RUNNING outside the two attempts
    stuckAfter: nat,    // stuck_job_after_seconds
    orphanAge: nat,     // bundle_orphan_max_age_hours
    ingestGap: nat,     // longest time from writing a file to committing its row
    sweepGap: nat,      // longest time from the keep query to the start of the sweep
    grace: nat,         // reconciler grace
    retention: nat,     // retention of finished rows
    gated: bool,        // workers do not step before startup recovery is over
    atomicIngest: bool  // no exception reaches the ingest handler once its row is persisted
  )

  datatype Status = Pending | Running | Delivering | Done | Failed

  datatype Row = Row(status: Status, requeues: nat, path: FileName, result: Option<Artefact>, updated: int)

  predicate Active(r: Row) {
    r.status.Pending? || r.status.Running? || r.status.Delivering?
  }

  predicate Terminal(r: Row) {
    !Active(r)
  }

  // ------------------------------------------------------------------ Spring

  /** What Spring stores under a trigger time; `full` says the three signal arrays were attached. */
  datatype Report = Success(artefact: Artefact, full: bool) | Notice

  datatype Response = Answer(code: int) | NoAnswer

  datatype Verdict = Accepted | Refused | Retry

  /** How `_post` and its callers read an answer. */
  function Classify(resp: Response): Verdict {
    match resp
    case NoAnswer => Retry
    case Answer(code) =>
      if code == 409 || 200 <= code < 300 then Accepted
      else if 400 <= code < 500 then Refused
      else Retry
  }

  /** Spring's side: the trigger time is a unique key, and an answer may be lost after a commit. */
  predicate SpringMay(spring: map<JobId, Report>, j: JobId, resp: Response, landed: bool) {
    && (landed ==> j !in spring)
    && (resp.Answer? ==>
          && (200 <= resp.code < 300 ==> landed)
          && (landed ==> 200 <= resp.code < 300 || resp.code >= 500)
          && (resp.code == 409 ==> j in spring))
  }

  function Posted(spring: map<JobId, Report>, j: JobId, rep: Report, landed: bool): map<JobId, Report> {
    if landed then spring[j := rep] else spring
  }

  // ------------------------------------------------------------------ actors

  datatype Ingest = Wrote(at: int) | Committed(job: JobId) | Undo

  datatype AttemptEnd = Returned(artefact: Option<Artefact>) | Raised

  datatype Phase = Before | Trying | Over(product: Option<Artefact>, broken: bool)

  /** Where a worker stands in `_process`. */
  datatype Worker =
    | Idle
    | Fetched(job: JobId)
    | Restoring(job: JobId, path: FileName)
    | Ready(job: JobId, path: FileName)
    | Missing(job: JobId, path: FileName)
    | Rca(job: JobId, path: FileName, phase: Phase, tries: nat, since: int, other: int)
    | Sending(job: JobId, path: FileName, artefact: Artefact)
    | Finalizing(job: JobId, path: FileName, artefact: Artefact, ok: bool)
    | Noticing(job: JobId, path: FileName)
    | Discarding(path: FileName)

  datatype Parcel = Parcel(job: JobId, path: FileName, artefact: Artefact)

  /** Where the reconciler stands in `redeliver_once`. */
  datatype Reconciler =
    | Resting
    | Walking(todo: seq<Parcel>)
    | Loaded(parcel: Parcel, full: bool, todo: seq<Parcel>)
    | Marking(parcel: Parcel, ok: bool, todo: seq<Parcel>)
    | Dropping(path: FileName, todo: seq<Parcel>)

  /** What `_recover_running` read about one RUNNING row. */
  datatype Claim = Claim(job: JobId, requeues: nat, path: FileName)

  /** Where the reaper stands; the first two points belong to startup recovery only. */
  datatype Reaper =
    | AtBoot
    | Listed(ids: seq<JobId>)
    | Waiting
    | Selected(claims: seq<Claim>)
    | Requeueing(enq: seq<JobId>, fail: seq<Claim>)
    | Reporting(fail: seq<Claim>)
    | Discard(fail: seq<Claim>)

  datatype Cleaner =
    | Quiet
    | Purged
    | Kept(keep: set<FileName>, asked: int)
    | Sweeping(keep: set<FileName>, cutoff: int)

  // ------------------------------------------------------------------ state

  /** What survives a crash, plus the ingest handlers, which own files before rows do. */
  datatype World = World(
    rows: map<JobId, Row>,
    files: map<FileName, int>,
    spring: map<JobId, Report>,
    ingests: map<FileName, Ingest>,
    nextJob: JobId,
    nextFile: FileName,
    now: int
  )

  datatype State = State(
    w: World,
    queue: seq<JobId>,
    unfinished: int,
    workers: seq<Worker>,
    rec: Reconciler,
    cln: Cleaner,
    rp: Reaper,
    up: bool
  )

  function Init(c: Config): State {
    State(World(map[], map[], map[], map[], 0, 0, 0), [], 0, seq(c.workers, _ => Idle),
          Resting, Quiet, AtBoot, false)
  }

  /**
   `RefreshFails` is every way the row is persisted and the handler still sees an exception: the
   refresh fails, or the commit succeeds and its acknowledgement is lost.
   */
  datatype IngestAct =
    | Write
    | Commit(p: FileName)
    | RefreshFails(p: FileName)
    | CommitFails(p: FileName)
    | Rollback(p: FileName, deleted: bool)
    | Enqueue(p: FileName)
    | Gone(p: FileName)

  datatype WorkerAct =
    | Take
    | ReadRow
    | Restore
    | MarkRunning
    | MarkMissing
    | BeginAttempt
    | EndAttempt(end: AttemptEnd)
    | CommitProduct
    | CommitNothing
    | CommitFailure
    | PostResult(resp: Response, landed: bool)
    | Finalize
    | PostNotice(resp: Response, landed: bool)
    | DropFile(deleted: bool)
    | Abandon

  datatype ReconcilerAct =
    | Scan(sel: seq<Parcel>)
    | Reload
    | Redeliver(resp: Response, landed: bool)
    | Confirm
    | DropParcel(deleted: bool)
    | StopScan

  datatype ReaperAct =
    | ListPending(ids: seq<JobId>)
    | QueuePending
    | SelectRunning(claims: seq<Claim>)
    | CommitRecovery
    | Requeue
    | NotifyFailed(resp: Response, landed: bool)
    | DropFailed(deleted: bool)
    | Rest
    | GiveUp

  datatype CleanerAct =
    | Purge
    | ListKeep
    | SweepBegin
    | SweepOne(p: FileName)
    | StopSweep

  datatype Event =
    | Handler(ia: IngestAct)
    | Work(i: nat, wa: WorkerAct)
    | Reconcile(ra: ReconcilerAct)
    | Reap(pa: ReaperAct)
    | Clean(ca: CleanerAct)
    | Tick(d: nat)
    | Crash

  // ------------------------------------------------------------------ pure pieces of the services

  predicate NoDup<T(==)>(s: seq<T>) {
    forall a, b :: 0 <= a < b < |s| ==> s[a] != s[b]
  }

  /** `_recover_running`: the rows whose requeue allowance is not used up, in query order. */
  function ToEnqueue(claims: seq<Claim>, max: nat): seq<JobId> {
    if claims == [] then []
    else (if claims[0].requeues < max then [claims[0].job] else []) + ToEnqueue(claims[1..], max)
  }

  function ToFail(claims: seq<Claim>, max: nat): seq<Claim> {
    if claims == [] then []
    else (if claims[0].requeues < max then [] else [claims[0]]) + ToFail(claims[1..], max)
  }

  function RecoverRow(r: Row, cl: Claim, max: nat, now: int): Row {
    if cl.requeues < max then r.(status := Pending, requeues := cl.requeues + 1, updated := now)
    else r.(status := Failed, updated := now)
  }

  /** The rows after the commit of `_recover_running`. */
  function RecoverRows(rows: map<JobId, Row>, claims: seq<Claim>, max: nat, now: int): map<JobId, Row> {
    if claims == [] then rows
    else
      var rest := RecoverRows(rows, claims[1..], max, now);
      if claims[0].job in rows then rest[claims[0].job := RecoverRow(rows[claims[0].job], claims[0], max, now)]
      else rest
  }

  /** `_mark_done` / `_mark_failed`: only a DELIVERING row moves. */
  function MarkRows(rows: map<JobId, Row>, j: JobId, ok: bool, now: int): map<JobId, Row> {
    if j in rows && rows[j].status.Delivering? then
      rows[j := rows[j].(status := if ok then Done else Failed, updated := now)]
    else rows
  }

  /** `purge_once` deletes finished rows past their retention. */
  function Expired(rows: map<JobId, Row>, cutoff: int): set<JobId> {
    set j | j in rows && Terminal(rows[j]) && rows[j].updated < cutoff
  }

  function FilesInUse(rows: map<JobId, Row>): set<FileName> {
    set j | j in rows && Active(rows[j]) :: rows[j].path
  }

  function Discarded(files: map<FileName, int>, p: FileName, deleted: bool): map<FileName, int> {
    if deleted then files - {p} else files
  }

  predicate Stuck(c: Config, s: State, r: Row) {
    r.status.Running? && (s.up ==> r.updated < s.w.now - c.stuckAfter)
  }

  // ------------------------------------------------------------------ guards

  predicate GateOpen(c: Config, s: State) {
    s.up || !c.gated
  }

  predicate IsWorker(c: Config, s: State, i: nat) {
    GateOpen(c, s) && i < |s.workers|
  }

  /** Time may pass only while every bounded activity stays within its bound. */
  predicate WithinBounds(c: Config, wk: Worker, now: int) {
    wk.Rca? ==>
      if wk.phase.Trying? then now - wk.since <= c.attemptCap
      else wk.other + (now - wk.since) <= c.overhead
  }

  predicate MayTick(c: Config, s: State, d: nat) {
    && (forall i :: 0 <= i < |s.workers| ==> WithinBounds(c, s.workers[i], s.w.now + d))
    && (forall p :: p in s.w.ingests && s.w.ingests[p].Wrote? ==> s.w.now + d <= s.w.ingests[p].at + c.ingestGap)
    && (s.cln.Kept? ==> s.w.now + d <= s.cln.asked + c.sweepGap)
  }

  predicate IngestAt(s: State, p: FileName) {
    s.up && p in s.w.ingests
  }

  predicate IngestEnabled(c: Config, s: State, a: IngestAct) {
    match a
    case Write => s.up
    case Commit(p) => IngestAt(s, p) && s.w.ingests[p].Wrote?
    case RefreshFails(p) => !c.atomicIngest && IngestAt(s, p) && s.w.ingests[p].Wrote?
    case CommitFails(p) => IngestAt(s, p) && s.w.ingests[p].Wrote?
    case Rollback(p, _) => IngestAt(s, p) && s.w.ingests[p].Undo?
    case Enqueue(p) => IngestAt(s, p) && s.w.ingests[p].Committed?
    case Gone(p) => IngestAt(s, p)
  }

  /** The worker stands in the analysis, its result is in, and its row can be written. */
  predicate AnalysisOver(s: State, wk: Worker) {
    wk.Rca? && wk.phase.Over? && wk.job in s.w.rows
  }

  predicate WorkerEnabled(c: Config, s: State, i: nat, a: WorkerAct) {
    && GateOpen(c, s) && i < |s.workers|
    && var wk := s.workers[i];
       match a {
         case Take => wk.Idle? && s.queue != []
         case ReadRow => wk.Fetched?
         case Restore => wk.Restoring?
         case MarkRunning => wk.Ready? && wk.job in s.w.rows
         case MarkMissing => wk.Missing? && wk.job in s.w.rows
         case BeginAttempt => wk.Rca? && wk.phase.Before?
         case EndAttempt(_) => wk.Rca? && wk.phase.Trying?
         case CommitProduct => AnalysisOver(s, wk) && !wk.phase.broken && wk.phase.product.Some?
         case CommitNothing => AnalysisOver(s, wk) && !wk.phase.broken && wk.phase.product.None?
         case CommitFailure => AnalysisOver(s, wk)
         case PostResult(resp, landed) => wk.Sending? && SpringMay(s.w.spring, wk.job, resp, landed)
         case Finalize => wk.Finalizing?
         case PostNotice(resp, landed) => wk.Noticing? && SpringMay(s.w.spring, wk.job, resp, landed)
         case DropFile(_) => wk.Discarding?
         case Abandon => !wk.Idle?
       }
  }

  /** A parcel repeats an overdue DELIVERING row. */
  predicate ParcelOf(c: Config, s: State, pc: Parcel) {
    && pc.job in s.w.rows
    && var r := s.w.rows[pc.job];
       r.status.Delivering? && r.updated < s.w.now - c.grace && r.path == pc.path && r.result == Some(pc.artefact)
  }

  predicate ReconcilerEnabled(c: Config, s: State, a: ReconcilerAct) {
    && s.up
    && match a {
         case Scan(sel) => s.rec.Resting? && forall k :: 0 <= k < |sel| ==> ParcelOf(c, s, sel[k])
         case Reload => s.rec.Walking? && s.rec.todo != []
         case Redeliver(resp, landed) => s.rec.Loaded? && SpringMay(s.w.spring, s.rec.parcel.job, resp, landed)
         case Confirm => s.rec.Marking?
         case DropParcel(_) => s.rec.Dropping?
         case StopScan => true
       }
  }

  /** A claim repeats what the row said when it was read. */
  predicate ClaimOf(c: Config, s: State, cl: Claim) {
    && cl.job in s.w.rows && Stuck(c, s, s.w.rows[cl.job])
    && cl.requeues == s.w.rows[cl.job].requeues && cl.path == s.w.rows[cl.job].path
  }

  /** `SELECT ... WHERE status = 'PENDING'`, in some order. */
  ghost predicate ListsPending(s: State, ids: seq<JobId>) {
    && NoDup(ids)
    && forall j :: j in ids <==> j in s.w.rows && s.w.rows[j].status.Pending?
  }

  /** `SELECT ... WHERE status = 'RUNNING' [AND updated_at < cutoff]`, in some order. */
  ghost predicate ListsStuck(c: Config, s: State, claims: seq<Claim>) {
    && (forall a, b :: 0 <= a < b < |claims| ==> claims[a].job != claims[b].job)
    && (forall k :: 0 <= k < |claims| ==> ClaimOf(c, s, claims[k]))
    && (forall j :: j in s.w.rows && Stuck(c, s, s.w.rows[j]) ==> exists k :: 0 <= k < |claims| && claims[k].job == j)
  }

  predicate ReportingNext(rp: Reaper) {
    rp.Reporting? || (rp.Requeueing? && rp.enq == [])
  }

  ghost predicate ReaperEnabled(c: Config, s: State, a: ReaperAct) {
    match a
    case ListPending(ids) => !s.up && s.rp.AtBoot? && ListsPending(s, ids)
    case QueuePending => !s.up && s.rp.Listed? && s.rp.ids != []
    case SelectRunning(claims) => (if s.up then s.rp.Waiting? else s.rp == Listed([])) && ListsStuck(c, s, claims)
    case CommitRecovery =>
      s.rp.Selected? && forall k :: 0 <= k < |s.rp.claims| ==> s.rp.claims[k].job in s.w.rows
    case Requeue => s.rp.Requeueing? && s.rp.enq != []
    case NotifyFailed(resp, landed) =>
      ReportingNext(s.rp) && s.rp.fail != [] && SpringMay(s.w.spring, s.rp.fail[0].job, resp, landed)
    case DropFailed(_) => s.rp.Discard? && s.rp.fail != []
    case Rest => ReportingNext(s.rp) && s.rp.fail == []
    case GiveUp => true
  }

  predicate CleanerEnabled(c: Config, s: State, a: CleanerAct) {
    && s.up
    && match a {
         case Purge => s.cln.Quiet?
         case ListKeep => s.cln.Purged?
         case SweepBegin => s.cln.Kept?
         case SweepOne(p) => s.cln.Sweeping? && p in s.w.files && p !in s.cln.keep && s.w.files[p] < s.cln.cutoff
         case StopSweep => true
       }
  }

  ghost predicate Enabled(c: Config, s: State, e: Event) {
    match e
    case Handler(a) => IngestEnabled(c, s, a)
    case Work(i, a) => WorkerEnabled(c, s, i, a)
    case Reconcile(a) => ReconcilerEnabled(c, s, a)
    case Reap(a) => ReaperEnabled(c, s, a)
    case Clean(a) => CleanerEnabled(c, s, a)
    case Tick(d) => MayTick(c, s, d)
    case Crash => true
  }

  // ------------------------------------------------------------------ effects

  function SetRow(w: World, j: JobId, r: Row): World {
    w.(rows := w.rows[j := r])
  }

  function SetWorker(s: State, i: nat, wk: Worker): State
    requires i < |s.workers|
  {
    s.(workers := s.workers[i := wk])
  }

  /** `task_done` in the worker's `finally`. */
  function Release(s: State, i: nat): State
    requires i < |s.workers|
  {
    s.(workers := s.workers[i := Idle], unfinished := s.unfinished - 1)
  }

  function Apply(c: Config, s: State, e: Event): State
    requires Enabled(c, s, e)
  {
    match e
    case Handler(a) => ApplyIngest(c, s, a)
    case Work(i, a) => ApplyWorker(c, s, i, a)
    case Reconcile(a) => ApplyReconciler(c, s, a)
    case Reap(a) => ApplyReaper(c, s, a)
    case Clean(a) => ApplyCleaner(c, s, a)
    case Tick(d) => Later(s, d)
    case Crash => CrashState(c, s)
  }

  function Later(s: State, d: nat): State {
    s.(w := s.w.(now := s.w.now + d))
  }

  /** Everything in memory is gone; rows, files and Spring stay. */
  function CrashState(c: Config, s: State): State {
    State(s.w.(ingests := map[]), [], 0, seq(c.workers, _ => Idle), Resting, Quiet, AtBoot, false)
  }

  function WriteFile(w: World): World {
    w.(files := w.files[w.nextFile := w.now], ingests := w.ingests[w.nextFile := Wrote(w.now)],
       nextFile := w.nextFile + 1)
  }

  function CommitJob(s: State, p: FileName, next: Ingest): State {
    s.(w := s.w.(rows := s.w.rows[s.w.nextJob := Row(Pending, 0, p, None, s.w.now)],
                 nextJob := s.w.nextJob + 1,
                 ingests := s.w.ingests[p := next]))
  }

  function ApplyIngest(c: Config, s: State, a: IngestAct): State
    requires IngestEnabled(c, s, a)
  {
    match a
    case Write => s.(w := WriteFile(s.w))
    case Commit(p) => CommitJob(s, p, Committed(s.w.nextJob))
    case RefreshFails(p) => CommitJob(s, p, Undo)
    case CommitFails(p) => s.(w := s.w.(ingests := s.w.ingests[p := Undo]))
    case Rollback(p, deleted) =>
      s.(w := s.w.(files := Discarded(s.w.files, p, deleted), ingests := s.w.ingests - {p}))
    case Enqueue(p) =>
      s.(w := s.w.(ingests := s.w.ingests - {p}), queue := s.queue + [s.w.ingests[p].job],
         unfinished := s.unfinished + 1)
    case Gone(p) => s.(w := s.w.(ingests := s.w.ingests - {p}))
  }

  /** One attempt of `_run_rca` is over: return, or retry once, or give up. */
  function AfterAttempt(wk: Worker, end: AttemptEnd, now: int): Worker
    requires wk.Rca?
  {
    var phase := match end
      case Returned(a) => Over(a, false)
      case Raised => if wk.tries == 0 then Before else Over(None, true);
    wk.(phase := phase, tries := wk.tries + 1, since := now)
  }

  function ApplyWorker(c: Config, s: State, i: nat, a: WorkerAct): State
    requires WorkerEnabled(c, s, i, a)
  {
    var wk := s.workers[i];
    match a
    case Take => SetWorker(s, i, Fetched(s.queue[0])).(queue := s.queue[1..])
    case ReadRow =>
      if wk.job in s.w.rows then SetWorker(s, i, Restoring(wk.job, s.w.rows[wk.job].path)) else Release(s, i)
    case Restore =>
      SetWorker(s, i, if wk.path in s.w.files then Ready(wk.job, wk.path) else Missing(wk.job, wk.path))
    case MarkRunning =>
      SetWorker(s, i, Rca(wk.job, wk.path, Before, 0, s.w.now, 0))
        .(w := SetRow(s.w, wk.job, s.w.rows[wk.job].(status := Running, updated := s.w.now)))
    case MarkMissing =>
      SetWorker(s, i, Noticing(wk.job, wk.path))
        .(w := SetRow(s.w, wk.job, s.w.rows[wk.job].(status := Failed, updated := s.w.now)))
    case BeginAttempt =>
      SetWorker(s, i, wk.(phase := Trying, since := s.w.now, other := wk.other + (s.w.now - wk.since)))
    case EndAttempt(end) => SetWorker(s, i, AfterAttempt(wk, end, s.w.now))
    case CommitProduct =>
      SetWorker(s, i, Sending(wk.job, wk.path, wk.phase.product.value))
        .(w := SetRow(s.w, wk.job, s.w.rows[wk.job].(status := Delivering, result := wk.phase.product, updated := s.w.now)))
    case CommitNothing =>
      SetWorker(s, i, Discarding(wk.path))
        .(w := SetRow(s.w, wk.job, s.w.rows[wk.job].(status := Done, updated := s.w.now)))
    case CommitFailure =>
      SetWorker(s, i, Noticing(wk.job, wk.path))
        .(w := SetRow(s.w, wk.job, s.w.rows[wk.job].(status := Failed, updated := s.w.now)))
    case PostResult(resp, landed) =>
      var s1 := s.(w := s.w.(spring := Posted(s.w.spring, wk.job, Success(wk.artefact, true), landed)));
      (match Classify(resp)
       case Accepted => SetWorker(s1, i, Finalizing(wk.job, wk.path, wk.artefact, true))
       case Refused => SetWorker(s1, i, Finalizing(wk.job, wk.path, wk.artefact, false))
       case Retry => Release(s1, i))
    case Finalize =>
      SetWorker(s, i, Discarding(wk.path)).(w := s.w.(rows := MarkRows(s.w.rows, wk.job, wk.ok, s.w.now)))
    case PostNotice(resp, landed) =>
      SetWorker(s, i, Discarding(wk.path)).(w := s.w.(spring := Posted(s.w.spring, wk.job, Notice, landed)))
    case DropFile(deleted) =>
      Release(s, i).(w := s.w.(files := Discarded(s.w.files, wk.path, deleted)))
    case Abandon => Release(s, i)
  }

  function ApplyReconciler(c: Config, s: State, a: ReconcilerAct): State
    requires ReconcilerEnabled(c, s, a)
  {
    match a
    case Scan(sel) => s.(rec := Walking(sel))
    case Reload => s.(rec := Loaded(s.rec.todo[0], s.rec.todo[0].path in s.w.files, s.rec.todo[1..]))
    case Redeliver(resp, landed) =>
      var pc := s.rec.parcel;
      s.(w := s.w.(spring := Posted(s.w.spring, pc.job, Success(pc.artefact, s.rec.full), landed)),
         rec := match Classify(resp)
                case Accepted => Marking(pc, true, s.rec.todo)
                case Refused => Marking(pc, false, s.rec.todo)
                case Retry => Walking(s.rec.todo))
    case Confirm =>
      var pc := s.rec.parcel;
      s.(w := s.w.(rows := MarkRows(s.w.rows, pc.job, s.rec.ok, s.w.now)),
         rec := if pc.job in s.w.rows && s.w.rows[pc.job].status.Delivering? then Dropping(pc.path, s.rec.todo)
                else Walking(s.rec.todo))
    case DropParcel(deleted) =>
      s.(w := s.w.(files := Discarded(s.w.files, s.rec.path, deleted)), rec := Walking(s.rec.todo))
    case StopScan => s.(rec := Resting)
  }

  function ApplyReaper(c: Config, s: State, a: ReaperAct): State
    requires ReaperEnabled(c, s, a)
  {
    match a
    case ListPending(ids) => s.(rp := Listed(ids))
    case QueuePending =>
      s.(queue := s.queue + [s.rp.ids[0]], unfinished := s.unfinished + 1, rp := Listed(s.rp.ids[1..]))
    case SelectRunning(claims) => s.(rp := Selected(claims))
    case CommitRecovery =>
      s.(w := s.w.(rows := RecoverRows(s.w.rows, s.rp.claims, c.maxRequeue, s.w.now)),
         rp := Requeueing(ToEnqueue(s.rp.claims, c.maxRequeue), ToFail(s.rp.claims, c.maxRequeue)))
    case Requeue =>
      s.(queue := s.queue + [s.rp.enq[0]], unfinished := s.unfinished + 1,
         rp := Requeueing(s.rp.enq[1..], s.rp.fail))
    case NotifyFailed(resp, landed) =>
      s.(w := s.w.(spring := Posted(s.w.spring, s.rp.fail[0].job, Notice, landed)), rp := Discard(s.rp.fail))
    case DropFailed(deleted) =>
      s.(w := s.w.(files := Discarded(s.w.files, s.rp.fail[0].path, deleted)), rp := Reporting(s.rp.fail[1..]))
    case Rest => s.(rp := Waiting, up := true)
    case GiveUp => s.(rp := Waiting, up := true)
  }

  function ApplyCleaner(c: Config, s: State, a: CleanerAct): State
    requires CleanerEnabled(c, s, a)
  {
    match a
    case Purge => s.(w := s.w.(rows := s.w.rows - Expired(s.w.rows, s.w.now - c.retention)), cln := Purged)
    case ListKeep => s.(cln := Kept(FilesInUse(s.w.rows), s.w.now))
    case SweepBegin => s.(cln := Sweeping(s.cln.keep, s.w.now - c.orphanAge))
    case SweepOne(p) => s.(w := s.w.(files := s.w.files - {p}))
    case StopSweep => s.(cln := Quiet)
  }

  // ------------------------------------------------------------------ runs

  /** The events can happen one after the other from `s`. */
  ghost predicate Run(c: Config, s: State, es: seq<Event>)
    decreases es
  {
    es == [] || (Enabled(c, s, es[0]) && Run(c, Apply(c, s, es[0]), es[1..]))
  }

  function After(c: Config, s: State, es: seq<Event>): State
    requires Run(c, s, es)
    decreases es
  {
    if es == [] then s else After(c, Apply(c, s, es[0]), es[1..])
  }

  ghost predicate Reachable(c: Config, s: State) {
    exists es :: Run(c, Init(c), es) && After(c, Init(c), es) == s
  }
}
