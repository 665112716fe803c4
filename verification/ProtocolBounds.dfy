/** Exactly-once reporting, finality, bounded requeueing and queue accounting over whole runs. */
module ProtocolBounds {
  import opened Wrappers
  import opened JobProtocol
  import opened ProtocolInvariant
  import opened ProtocolSteps
  import opened ProtocolRecovery
  import opened ProtocolTheorems

  // ------------------------------------------------------------------ what Spring holds

  predicate HoldsResult(w: World, j: JobId, a: Artefact) {
    j in w.spring && w.spring[j].Success? && w.spring[j].artefact == a
  }

  /**
   DELIVERING always has a stored result; DONE with a result means Spring holds exactly that result;
   what Spring holds for an unfinished job is that result too, and nothing before there is one.
   */
  predicate Consistent(w: World, j: JobId) {
    j in w.rows ==>
      var r := w.rows[j];
      && (r.status.Delivering? ==> r.result.Some?)
      && (r.status.Done? && r.result.Some? ==> HoldsResult(w, j, r.result.value))
      && (r.status.Done? && r.result.None? ==> j !in w.spring)
      && (r.status.Delivering? && r.result.Some? && j in w.spring ==> HoldsResult(w, j, r.result.value))
      && (r.status.Pending? || r.status.Running? ==> j !in w.spring && r.result.None?)
      && (r.status.Failed? && j in w.spring ==>
            if r.result.None? then w.spring[j].Notice? else HoldsResult(w, j, r.result.value))
  }

  /** Rows and Spring agree; where files are durable, the signal arrays of a DONE job are there too. */
  lemma ReportsMatchRows(c: Config, s: State, j: JobId)
    requires Orderly(c) && Reachable(c, s)
    ensures Consistent(s.w, j)
    ensures Durable(c) && j in s.w.rows && s.w.rows[j].status.Done? && j in s.w.spring ==> s.w.spring[j].full
  {
    ReachableInv(c, s);
    if j in s.w.rows {
      assert RowOk(c, s.w, j);
    }
  }

  /** 1 if the event is a POST for job `j` that Spring stores. */
  function Landing(s: State, e: Event, j: JobId): nat {
    var landed := match e
      case Work(i, PostResult(_, l)) => l && i < |s.workers| && s.workers[i].Sending? && s.workers[i].job == j
      case Work(i, PostNotice(_, l)) => l && i < |s.workers| && s.workers[i].Noticing? && s.workers[i].job == j
      case Reconcile(Redeliver(_, l)) => l && s.rec.Loaded? && s.rec.parcel.job == j
      case Reap(NotifyFailed(_, l)) => l && ReportingNext(s.rp) && s.rp.fail != [] && s.rp.fail[0].job == j
      case _ => false;
    if landed then 1 else 0
  }

  ghost function Landings(c: Config, s: State, es: seq<Event>, j: JobId): nat
    requires Run(c, s, es)
    decreases es
  {
    if es == [] then 0 else Landing(s, es[0], j) + Landings(c, Apply(c, s, es[0]), es[1..], j)
  }

  /** One event either leaves Spring's entry for `j` alone, or is the POST that creates it. */
  ghost predicate LandsRight(v: World, w: World, landing: nat, j: JobId) {
    if j in v.spring then landing == 0 && j in w.spring && w.spring[j] == v.spring[j]
    else j in w.spring <==> landing == 1
  }

  lemma WorkerLanding(c: Config, s: State, i: nat, a: WorkerAct, j: JobId)
    requires WorkerEnabled(c, s, i, a)
    ensures LandsRight(s.w, ApplyWorker(c, s, i, a).w, Landing(s, Work(i, a), j), j)
  {
  }

  lemma ReaperLanding(c: Config, s: State, a: ReaperAct, j: JobId)
    requires ReaperEnabled(c, s, a)
    ensures LandsRight(s.w, ApplyReaper(c, s, a).w, Landing(s, Reap(a), j), j)
  {
  }

  lemma LandingStores(c: Config, s: State, e: Event, j: JobId)
    requires Enabled(c, s, e)
    ensures LandsRight(s.w, Apply(c, s, e).w, Landing(s, e, j), j)
  {
    match e
    case Work(i, a) => WorkerLanding(c, s, i, a, j);
    case Reap(a) => ReaperLanding(c, s, a, j);
    case _ =>
  }

  /** Helper: Spring's unique key, an assumption of `SpringMay`, makes the POSTs that land countable along a run. */
  lemma {:induction false} StoredOnce(c: Config, s: State, es: seq<Event>, j: JobId)
    requires Run(c, s, es)
    ensures Landings(c, s, es, j) == if j !in s.w.spring && j in After(c, s, es).w.spring then 1 else 0
    ensures j in s.w.spring ==> j in After(c, s, es).w.spring && After(c, s, es).w.spring[j] == s.w.spring[j]
    decreases es
  {
    if es != [] {
      LandingStores(c, s, es[0], j);
      StoredOnce(c, Apply(c, s, es[0]), es[1..], j);
    }
  }

  /** A DONE job with a result was stored by exactly one POST, one without a result by none. */
  ghost predicate ReportedOnce(c: Config, es: seq<Event>, j: JobId)
    requires Run(c, Init(c), es)
  {
    var w := After(c, Init(c), es).w;
    j in w.rows && w.rows[j].status.Done? ==> Landings(c, Init(c), es, j) == if w.rows[j].result.Some? then 1 else 0
  }

  lemma {:induction false} DoneMeansReportedOnce(c: Config, es: seq<Event>, j: JobId)
    requires Orderly(c) && Run(c, Init(c), es)
    ensures ReportedOnce(c, es, j)
  {
    StoredOnce(c, Init(c), es, j);
    ReportsMatchRows(c, After(c, Init(c), es), j);
  }

  // ------------------------------------------------------------------ finality

  /** A job number that was given out and is gone, or whose row is final. */
  ghost predicate Finished(w: World, j: JobId) {
    j < w.nextJob && (j in w.rows ==> Terminal(w.rows[j]))
  }

  lemma FinishedStays(c: Config, s: State, e: Event, j: JobId)
    requires Orderly(c) && Inv(c, s) && Enabled(c, s, e) && Finished(s.w, j)
    ensures var w := Apply(c, s, e).w;
      Finished(w, j) && (j in w.rows ==> j in s.w.rows && w.rows[j] == s.w.rows[j])
  {
    var js := EventKeeps(c, s, e);
    var w := Apply(c, s, e).w;
    if !e.Tick? && !e.Crash? && j in w.rows && j in s.w.rows {
      assert RowStep(c, s.w.rows[j], w.rows[j]);
    }
  }

  lemma {:induction false} FinishedStaysOn(c: Config, s: State, es: seq<Event>, j: JobId)
    requires Orderly(c) && Inv(c, s) && Run(c, s, es) && Finished(s.w, j)
    ensures Untouched(s.w, After(c, s, es).w, j)
    decreases es
  {
    if es != [] {
      FinishedStays(c, s, es[0], j);
      var _ := EventKeeps(c, s, es[0]);
      FinishedStaysOn(c, Apply(c, s, es[0]), es[1..], j);
    }
  }

  /** The row is as it was, or gone for good. */
  ghost predicate Untouched(v: World, w: World, j: JobId) {
    j in w.rows ==> j in v.rows && w.rows[j] == v.rows[j]
  }

  /** From `s` on, a finished job stays as it is. */
  ghost predicate StaysFinal(c: Config, s: State, es: seq<Event>, j: JobId)
    requires Run(c, s, es)
  {
    Finished(s.w, j) ==> Untouched(s.w, After(c, s, es).w, j)
  }

  /** DONE and FAILED never change again until the row is purged, and a purged number never returns. */
  lemma {:induction false} FinalIsFinal(c: Config, s: State, es: seq<Event>, j: JobId)
    requires Orderly(c) && Reachable(c, s) && Run(c, s, es)
    ensures StaysFinal(c, s, es, j)
  {
    ReachableInv(c, s);
    if Finished(s.w, j) {
      FinishedStaysOn(c, s, es, j);
    }
  }

  // ------------------------------------------------------------------ bounded work

  function Rank(st: Status): nat {
    match st
    case Pending => 3
    case Running => 2
    case Delivering => 1
    case _ => 0
  }

  /** An upper bound on the status changes job `j` still has in front of it. */
  ghost function Fuel(c: Config, w: World, j: JobId): int {
    if j in w.rows then 2 * (c.maxRequeue - w.rows[j].requeues) + Rank(w.rows[j].status)
    else if j >= w.nextJob then 2 * c.maxRequeue + 3
    else 0
  }

  /** An upper bound on how often job `j` will still enter RUNNING. */
  ghost function Starts(c: Config, w: World, j: JobId): int {
    if j in w.rows then c.maxRequeue - w.rows[j].requeues + (if w.rows[j].status.Pending? then 1 else 0)
    else if j >= w.nextJob then c.maxRequeue + 1
    else 0
  }

  ghost function Change(v: World, w: World, j: JobId): nat {
    if j in v.rows && j in w.rows && v.rows[j].status != w.rows[j].status then 1 else 0
  }

  ghost function Entry(v: World, w: World, j: JobId): nat {
    if j in v.rows && j in w.rows && !v.rows[j].status.Running? && w.rows[j].status.Running? then 1 else 0
  }

  ghost function StatusChanges(c: Config, s: State, es: seq<Event>, j: JobId): nat
    requires Run(c, s, es)
    decreases es
  {
    if es == [] then 0
    else Change(s.w, Apply(c, s, es[0]).w, j) + StatusChanges(c, Apply(c, s, es[0]), es[1..], j)
  }

  ghost function RunningEntries(c: Config, s: State, es: seq<Event>, j: JobId): nat
    requires Run(c, s, es)
    decreases es
  {
    if es == [] then 0
    else Entry(s.w, Apply(c, s, es[0]).w, j) + RunningEntries(c, Apply(c, s, es[0]), es[1..], j)
  }

  lemma GuaranteeBurns(c: Config, v: World, w: World, js: set<JobId>, j: JobId)
    requires WorldOk(c, v) && WorldOk(c, w) && Guarantee(c, v, w, js)
    ensures 0 <= Fuel(c, w, j) && Change(v, w, j) + Fuel(c, w, j) <= Fuel(c, v, j)
    ensures 0 <= Starts(c, w, j) && Entry(v, w, j) + Starts(c, w, j) <= Starts(c, v, j)
  {
    if j in v.rows {
      assert RowOk(c, v, j);
      if j in w.rows {
        assert RowOk(c, w, j);
        assert RowStep(c, v.rows[j], w.rows[j]);
      }
    }
  }

  lemma EventBurns(c: Config, s: State, e: Event, j: JobId)
    requires Orderly(c) && Inv(c, s) && Enabled(c, s, e)
    ensures var w := Apply(c, s, e).w;
      && 0 <= Fuel(c, w, j) && Change(s.w, w, j) + Fuel(c, w, j) <= Fuel(c, s.w, j)
      && 0 <= Starts(c, w, j) && Entry(s.w, w, j) + Starts(c, w, j) <= Starts(c, s.w, j)
  {
    var js := EventKeeps(c, s, e);
    var w := Apply(c, s, e).w;
    if e.Tick? || e.Crash? {
      assert w.rows == s.w.rows && w.nextJob == s.w.nextJob;
      if j in s.w.rows {
        assert RowOk(c, s.w, j);
      }
    } else {
      GuaranteeBurns(c, s.w, w, js, j);
    }
  }

  lemma {:induction false} RunBurns(c: Config, s: State, es: seq<Event>, j: JobId)
    requires Orderly(c) && Inv(c, s) && Run(c, s, es) && 0 <= Fuel(c, s.w, j) && 0 <= Starts(c, s.w, j)
    ensures StatusChanges(c, s, es, j) <= Fuel(c, s.w, j)
    ensures RunningEntries(c, s, es, j) <= Starts(c, s.w, j)
    decreases es
  {
    if es != [] {
      EventBurns(c, s, es[0], j);
      var _ := EventKeeps(c, s, es[0]);
      RunBurns(c, Apply(c, s, es[0]), es[1..], j);
    }
  }

  /** A job's work along a run is bounded by its requeue allowance. */
  ghost predicate WorkBound(c: Config, es: seq<Event>, j: JobId)
    requires Run(c, Init(c), es)
  {
    && StatusChanges(c, Init(c), es, j) <= 2 * c.maxRequeue + 3
    && RunningEntries(c, Init(c), es, j) <= c.maxRequeue + 1
    && var w := After(c, Init(c), es).w; j in w.rows ==> w.rows[j].requeues <= c.maxRequeue
  }

  /** Over any run, with any number of crashes. */
  lemma {:induction false} WorkIsBounded(c: Config, es: seq<Event>, j: JobId)
    requires Orderly(c) && Run(c, Init(c), es)
    ensures WorkBound(c, es, j)
  {
    InitInv(c);
    RunBurns(c, Init(c), es, j);
    RunKeeps(c, Init(c), es);
    var w := After(c, Init(c), es).w;
    if j in w.rows {
      assert RowOk(c, w, j);
    }
  }

  // ------------------------------------------------------------------ queue accounting

  /** `unfinished` counts queued ids plus ids held by workers, whatever the settings. */
  ghost predicate Accounted(c: Config, s: State) {
    |s.workers| == c.workers && s.unfinished == |s.queue| + Busy(s.workers)
  }

  lemma WorkerAccounts(c: Config, s: State, i: nat, a: WorkerAct)
    requires Accounted(c, s) && WorkerEnabled(c, s, i, a)
    ensures Accounted(c, ApplyWorker(c, s, i, a))
  {
    WorkerFrame(c, s, i, a);
    BusyUpdate(s.workers, i, ApplyWorker(c, s, i, a).workers[i]);
  }

  lemma EventAccounts(c: Config, s: State, e: Event)
    requires Accounted(c, s) && Enabled(c, s, e)
    ensures Accounted(c, Apply(c, s, e))
  {
    match e
    case Work(i, a) => WorkerAccounts(c, s, i, a);
    case Crash => FreshPool(c, CrashState(c, s).workers);
    case _ =>
  }

  lemma {:induction false} RunAccounts(c: Config, s: State, es: seq<Event>)
    requires Accounted(c, s) && Run(c, s, es)
    ensures Accounted(c, After(c, s, es))
    decreases es
  {
    if es != [] {
      EventAccounts(c, s, es[0]);
      RunAccounts(c, Apply(c, s, es[0]), es[1..]);
    }
  }

  /** `join` in `stop` returns exactly when nothing is queued and no worker holds a job. */
  lemma JoinMeansIdle(c: Config, s: State)
    requires Reachable(c, s)
    ensures 0 <= s.unfinished - |s.queue| <= c.workers
    ensures s.unfinished == 0 <==> s.queue == [] && forall i :: 0 <= i < |s.workers| ==> s.workers[i].Idle?
  {
    var es :| Run(c, Init(c), es) && After(c, Init(c), es) == s;
    FreshPool(c, Init(c).workers);
    RunAccounts(c, Init(c), es);
    BusyZero(s.workers);
    BusyBound(s.workers);
  }

  /** One more event, and how much it can add to the unfinished count. */
  predicate Enqueues(e: Event) {
    match e
    case Handler(Enqueue(_)) => true
    case Reap(QueuePending) => true
    case Reap(Requeue) => true
    case _ => false
  }

  ghost predicate AtRest(s: State) {
    s.queue == [] && forall i :: 0 <= i < |s.workers| ==> s.workers[i].Idle?
  }

  /**
   `stop` cancels the workers after `join` has returned. Once the unfinished count is zero, queue and
   workers stay empty through any events that enqueue nothing, so the cancellation interrupts no job.
   */
  lemma {:induction false} StopInterruptsNobody(c: Config, s: State, es: seq<Event>)
    requires Reachable(c, s) && s.unfinished == 0 && Run(c, s, es) && forall k :: 0 <= k < |es| ==> !Enqueues(es[k])
    ensures AtRest(s) && AtRest(After(c, s, es)) && After(c, s, es).unfinished == 0
    decreases es
  {
    JoinMeansIdle(c, s);
    if es != [] {
      ReachStep(c, s, es[0]);
      StaysAtRest(c, s, es[0]);
      StopInterruptsNobody(c, Apply(c, s, es[0]), es[1..]);
    }
  }

  lemma StaysAtRest(c: Config, s: State, e: Event)
    requires AtRest(s) && s.unfinished == 0 && Enabled(c, s, e) && !Enqueues(e)
    ensures Apply(c, s, e).unfinished == 0
  {
  }

  // ------------------------------------------------------------------ redelivery

  ghost predicate Resulting(w: World) {
    forall j :: j in w.rows && w.rows[j].status.Delivering? ==> w.rows[j].result.Some?
  }

  lemma {:induction false} RecoverResulting(rows: map<JobId, Row>, claims: seq<Claim>, max: nat, now: int)
    ensures var t := RecoverRows(rows, claims, max, now);
      t.Keys == rows.Keys && forall j :: j in t ==> t[j] == rows[j] || !t[j].status.Delivering?
  {
    if claims != [] {
      RecoverResulting(rows, claims[1..], max, now);
    }
  }

  lemma EventResulting(c: Config, s: State, e: Event)
    requires Resulting(s.w) && Enabled(c, s, e)
    ensures Resulting(Apply(c, s, e).w)
  {
    if e.Reap? && e.pa.CommitRecovery? {
      RecoverResulting(s.w.rows, s.rp.claims, c.maxRequeue, s.w.now);
    }
  }

  lemma {:induction false} RunResulting(c: Config, s: State, es: seq<Event>)
    requires Resulting(s.w) && Run(c, s, es)
    ensures Resulting(After(c, s, es).w)
    decreases es
  {
    if es != [] {
      EventResulting(c, s, es[0]);
      RunResulting(c, Apply(c, s, es[0]), es[1..]);
    }
  }

  /** In every deployment DELIVERING has a stored result: the reconciler's guard against its absence never fires. */
  lemma DeliveringHasResult(c: Config, s: State)
    requires Reachable(c, s)
    ensures Resulting(s.w)
  {
    var es :| Run(c, Init(c), es) && After(c, Init(c), es) == s;
    RunResulting(c, Init(c), es);
  }

  /** The reconciler picks up an overdue DELIVERING job, with its signals if they are there. */
  lemma PicksUp(c: Config, s: State, pc: Parcel) returns (t: State)
    requires Reachable(c, s) && s.up && s.rec.Resting?
    requires HasRow(s.w, pc.job, Delivering, pc.path) && s.w.rows[pc.job].updated < s.w.now - c.grace
    requires s.w.rows[pc.job].result == Some(pc.artefact)
    ensures Reachable(c, t) && t == s.(rec := Loaded(pc, pc.path in s.w.files, []))
  {
    ReachStep(c, s, Reconcile(Scan([pc])));
    var s1 := s.(rec := Walking([pc]));
    assert s1 == Apply(c, s, Reconcile(Scan([pc])));
    assert [pc][1..] == [];
    ReachStep(c, s1, Reconcile(Reload));
    t := Apply(c, s1, Reconcile(Reload));
  }

  /** A report Spring already holds is answered 409, and the reconciler then finalises the job as DONE. */
  lemma DuplicateFinalises(c: Config, s: State, j: JobId) returns (t: State)
    requires Reachable(c, s) && s.up && s.rec.Resting?
    requires j in s.w.rows && s.w.rows[j].status.Delivering? && s.w.rows[j].updated < s.w.now - c.grace
    requires j in s.w.spring
    ensures Reachable(c, t) && t.w == SetRow(s.w, j, s.w.rows[j].(status := Done, updated := s.w.now))
  {
    DeliveringHasResult(c, s);
    var r := s.w.rows[j];
    var s1 := PicksUp(c, s, Parcel(j, r.path, r.result.value));
    ReachStep(c, s1, Reconcile(Redeliver(Answer(409), false)));
    var s2 := Apply(c, s1, Reconcile(Redeliver(Answer(409), false)));
    ReachStep(c, s2, Reconcile(Confirm));
    t := Apply(c, s2, Reconcile(Confirm));
  }
}
