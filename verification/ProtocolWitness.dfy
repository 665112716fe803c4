/** Runs that lead to bad states: what goes wrong when one of the conditions fails. */
module ProtocolWitness {
  import opened Wrappers
  import opened JobProtocol
  import opened ProtocolInvariant
  import opened ProtocolTheorems
  import opened ProtocolBounds

  // ------------------------------------------------------------------ runs and the status changes of job 0

  /** Some run reaches `s` with at least `n` status changes of job 0. */
  ghost predicate Reached(c: Config, s: State, n: nat) {
    exists es :: Run(c, Init(c), es) && After(c, Init(c), es) == s && StatusChanges(c, Init(c), es, 0) >= n
  }

  lemma {:induction false} ChangesSnoc(c: Config, s: State, es: seq<Event>, e: Event, j: JobId)
    requires Run(c, s, es) && Enabled(c, After(c, s, es), e)
    ensures Run(c, s, es + [e])
    ensures StatusChanges(c, s, es + [e], j)
            == StatusChanges(c, s, es, j) + Change(After(c, s, es).w, Apply(c, After(c, s, es), e).w, j)
    decreases es
  {
    RunSnoc(c, s, es, e);
    if es == [] {
      assert [e][1..] == [] && [] + [e] == [e];
    } else {
      assert (es + [e])[1..] == es[1..] + [e];
      ChangesSnoc(c, Apply(c, s, es[0]), es[1..], e, j);
    }
  }

  lemma Step(c: Config, s: State, n: nat, e: Event, t: State)
    requires Reached(c, s, n) && Enabled(c, s, e) && t == Apply(c, s, e)
    ensures Reached(c, t, n) && Reached(c, t, n + Change(s.w, t.w, 0))
  {
    var es :| Run(c, Init(c), es) && After(c, Init(c), es) == s && StatusChanges(c, Init(c), es, 0) >= n;
    RunSnoc(c, Init(c), es, e);
    ChangesSnoc(c, Init(c), es, e, 0);
  }

  lemma ReachedIsReachable(c: Config, s: State, n: nat)
    requires Reached(c, s, n)
    ensures Reachable(c, s)
  {
  }

  lemma ReachableIsReached(c: Config, s: State)
    requires Reachable(c, s)
    ensures Reached(c, s, 0)
  {
    var es :| Run(c, Init(c), es) && After(c, Init(c), es) == s;
    assert StatusChanges(c, Init(c), es, 0) >= 0;
  }

  /** Startup on an empty database. */
  function Base(c: Config): State {
    Init(c).(rp := Waiting, up := true)
  }

  lemma ReachInit(c: Config)
    ensures Reachable(c, Init(c))
  {
    assert Run(c, Init(c), []) && After(c, Init(c), []) == Init(c);
  }

  lemma EmptyRecovery(c: Config)
    ensures Reachable(c, Init(c).(rp := Selected([])))
  {
    ReachInit(c);
    ReachStep(c, Init(c), Reap(ListPending([])));
    var s := Init(c).(rp := Listed([]));
    assert s == Apply(c, Init(c), Reap(ListPending([])));
    ReachStep(c, s, Reap(SelectRunning([])));
  }

  lemma ReachBase(c: Config)
    ensures Reachable(c, Base(c))
  {
    EmptyRecovery(c);
    var s := Init(c).(rp := Selected([]));
    ReachStep(c, s, Reap(CommitRecovery));
    var t := Init(c).(rp := Requeueing([], []));
    assert t == Apply(c, s, Reap(CommitRecovery));
    ReachStep(c, t, Reap(Rest));
  }

  /** Commit succeeds, refresh fails: the rollback discards the file of a job that exists. */
  lemma RefreshFailureLosesFile(c: Config)
    requires !c.atomicIngest
    ensures exists s :: Reachable(c, s) && !FileSafe(s)
  {
    var s0 := Base(c);
    ReachBase(c);
    ReachStep(c, s0, Handler(Write));
    var s1 := Apply(c, s0, Handler(Write));
    ReachStep(c, s1, Handler(RefreshFails(0)));
    var s2 := Apply(c, s1, Handler(RefreshFails(0)));
    ReachStep(c, s2, Handler(Rollback(0, true)));
    var s3 := Apply(c, s2, Handler(Rollback(0, true)));
    assert 0 in s3.w.rows && Active(s3.w.rows[0]) && 0 !in s3.w.files;
  }

  /** A file is on disk at 0 and its keep query, taken `ingestGap` later, does not know it. */
  lemma KeepMissesFile(c: Config) returns (s: State)
    ensures Reachable(c, s) && s.up && s.cln == Kept({}, c.ingestGap)
    ensures s.w == World(map[], map[0 := 0], map[], map[0 := Wrote(0)], 0, 1, c.ingestGap)
    ensures forall i :: 0 <= i < |s.workers| ==> s.workers[i].Idle?
  {
    ReachBase(c);
    ReachStep(c, Base(c), Handler(Write));
    var s1 := Apply(c, Base(c), Handler(Write));
    ReachStep(c, s1, Clean(Purge));
    var s2 := s1.(cln := Purged);
    assert s2 == Apply(c, s1, Clean(Purge));
    s := TickThenKeep(c, s2);
  }

  lemma TickThenKeep(c: Config, s: State) returns (t: State)
    requires Reachable(c, s) && s.up && s.cln.Purged? && s.w.rows == map[] && s.w.now == 0
    requires s.w.ingests == map[0 := Wrote(0)]
    requires forall i :: 0 <= i < |s.workers| ==> s.workers[i].Idle?
    ensures Reachable(c, t) && t == s.(w := s.w.(now := c.ingestGap), cln := Kept({}, c.ingestGap))
  {
    ReachStep(c, s, Tick(c.ingestGap));
    var s1 := s.(w := s.w.(now := c.ingestGap));
    assert s1 == Apply(c, s, Tick(c.ingestGap));
    ReachStep(c, s1, Clean(ListKeep));
    t := Apply(c, s1, Clean(ListKeep));
    assert FilesInUse(s1.w.rows) == {};
  }

  /** A file written early, unknown to the keep set, and committed just before the sweep. */
  lemma LateCommitLosesFile(c: Config)
    requires c.ingestGap + c.sweepGap > c.orphanAge
    ensures exists s :: Reachable(c, s) && !FileSafe(s)
  {
    var s := KeepMissesFile(c);
    ReachStep(c, s, Handler(Commit(0)));
    var s1 := Apply(c, s, Handler(Commit(0)));
    ReachStep(c, s1, Tick(c.sweepGap));
    SweepLosesFile(c, Apply(c, s1, Tick(c.sweepGap)));
  }

  lemma SweepLosesFile(c: Config, s: State)
    requires Reachable(c, s) && s.up && s.cln.Kept? && s.cln.keep == {}
    requires 0 in s.w.files && s.w.files[0] < s.w.now - c.orphanAge && HasRow(s.w, 0, Pending, 0)
    ensures exists t :: Reachable(c, t) && !FileSafe(t)
  {
    ReachStep(c, s, Clean(SweepBegin));
    var s1 := Apply(c, s, Clean(SweepBegin));
    ReachStep(c, s1, Clean(SweepOne(0)));
    Unsafe(c, Apply(c, s1, Clean(SweepOne(0))), 0);
  }

  lemma Unsafe(c: Config, s: State, j: JobId)
    requires Reachable(c, s) && j in s.w.rows && Active(s.w.rows[j]) && s.w.rows[j].path !in s.w.files
    ensures exists t :: Reachable(c, t) && !FileSafe(t)
  {
  }

  lemma OthersIdle(c: Config, s: State, d: nat)
    requires |s.workers| > 0 && s.w.ingests == map[] && s.cln.Quiet?
    requires forall i :: 1 <= i < |s.workers| ==> s.workers[i].Idle?
    requires WithinBounds(c, s.workers[0], s.w.now + d)
    ensures MayTick(c, s, d)
  {
  }

  // ------------------------------------------------------------------ one job that has been requeued k times

  /** The process has just crashed; the only job is PENDING and its file is there. */
  function Cold(c: Config, k: nat): State {
    State(World(map[0 := Row(Pending, k, 0, None, 0)], map[0 := 0], map[], map[], 1, 1, 0),
          [], 0, seq(c.workers, _ => Idle), Resting, Quiet, AtBoot, false)
  }

  /** Recovery has queued it. */
  function Queued(c: Config, k: nat): State {
    Cold(c, k).(queue := [0], unfinished := 1, rp := Listed([]))
  }

  lemma ColdStart(c: Config)
    ensures Reached(c, Cold(c, 0), 0)
  {
    var s := Base(c);
    ReachBase(c);
    ReachableIsReached(c, s);
    var s1 := Apply(c, s, Handler(Write));
    Step(c, s, 0, Handler(Write), s1);
    var s2 := Apply(c, s1, Handler(Commit(0)));
    Step(c, s1, 0, Handler(Commit(0)), s2);
    Step(c, s2, 0, Crash, Cold(c, 0));
  }

  lemma QueuesAgain(c: Config, k: nat, n: nat)
    requires Reached(c, Cold(c, k), n)
    ensures Reached(c, Queued(c, k), n)
  {
    var s := Cold(c, k);
    assert ListsPending(s, [0]);
    var s1 := s.(rp := Listed([0]));
    Step(c, s, n, Reap(ListPending([0])), s1);
    assert [0][1..] == [] && s.queue + [0] == [0];
    Step(c, s1, n, Reap(QueuePending), Queued(c, k));
  }

  /** No row is RUNNING: recovery commits nothing. */
  lemma CommitsNothing(c: Config, s: State, n: nat)
    requires Reached(c, s, n) && !s.up && s.rp == Listed([]) && forall j :: j in s.w.rows ==> !s.w.rows[j].status.Running?
    ensures Reached(c, s.(rp := Requeueing([], [])), n)
  {
    assert ListsStuck(c, s, []);
    var s1 := s.(rp := Selected([]));
    Step(c, s, n, Reap(SelectRunning([])), s1);
    var s2 := s.(rp := Requeueing([], []));
    assert Apply(c, s1, Reap(CommitRecovery)) == s2;
    Step(c, s1, n, Reap(CommitRecovery), s2);
  }

  lemma ComesUp(c: Config, k: nat, n: nat)
    requires Reached(c, Queued(c, k), n)
    ensures Reached(c, Queued(c, k).(rp := Waiting, up := true), n)
  {
    CommitsNothing(c, Queued(c, k), n);
    var s := Queued(c, k).(rp := Requeueing([], []));
    Step(c, s, n, Reap(Rest), Queued(c, k).(rp := Waiting, up := true));
  }

  /** What worker 0 makes of a state in which it starts job 0. */
  function Started(s: State): State
    requires |s.workers| > 0 && 0 in s.w.rows
  {
    s.(queue := [], workers := s.workers[0 := Rca(0, 0, Before, 0, s.w.now, 0)],
       w := SetRow(s.w, 0, s.w.rows[0].(status := Running, updated := s.w.now)))
  }

  lemma WorkerStarts(c: Config, s: State, n: nat)
    requires Reached(c, s, n) && GateOpen(c, s) && |s.workers| > 0 && s.workers[0].Idle? && s.queue == [0]
    requires HasRow(s.w, 0, Pending, 0) && 0 in s.w.files
    ensures Reached(c, Started(s), n + 1)
  {
    var s1 := s.(queue := [], workers := s.workers[0 := Fetched(0)]);
    assert s1 == Apply(c, s, Work(0, Take));
    Step(c, s, n, Work(0, Take), s1);
    var s2 := s.(queue := [], workers := s.workers[0 := Restoring(0, 0)]);
    assert s2.workers == s1.workers[0 := Restoring(0, 0)];
    Step(c, s1, n, Work(0, ReadRow), s2);
    var s3 := s.(queue := [], workers := s.workers[0 := Ready(0, 0)]);
    assert s3.workers == s2.workers[0 := Ready(0, 0)];
    Step(c, s2, n, Work(0, Restore), s3);
    assert Started(s).workers == s3.workers[0 := Rca(0, 0, Before, 0, s.w.now, 0)];
    Step(c, s3, n, Work(0, MarkRunning), Started(s));
  }

  /** The reaper reads job 0 as RUNNING. */
  lemma SelectJob(c: Config, s: State, n: nat, k: nat)
    requires Reached(c, s, n) && (if s.up then s.rp.Waiting? else s.rp == Listed([]))
    requires s.w.rows.Keys == {0} && Stuck(c, s, s.w.rows[0]) && s.w.rows[0].requeues == k && s.w.rows[0].path == 0
    ensures Enabled(c, s, Reap(SelectRunning([Claim(0, k, 0)])))
    ensures Reached(c, s.(rp := Selected([Claim(0, k, 0)])), n)
  {
    var claims := [Claim(0, k, 0)];
    assert ClaimOf(c, s, claims[0]);
    assert forall j :: j in s.w.rows ==> claims[0].job == j;
    Step(c, s, n, Reap(SelectRunning(claims)), s.(rp := Selected(claims)));
  }

  /** Recovery of a single claim. */
  lemma {:induction false} OneClaim(rows: map<JobId, Row>, cl: Claim, max: nat, now: int)
    requires cl.job in rows
    ensures RecoverRows(rows, [cl], max, now) == rows[cl.job := RecoverRow(rows[cl.job], cl, max, now)]
    ensures ToEnqueue([cl], max) == if cl.requeues < max then [cl.job] else []
    ensures ToFail([cl], max) == if cl.requeues < max then [] else [cl]
  {
    assert [cl][1..] == [];
    assert RecoverRows(rows, [], max, now) == rows && ToEnqueue([], max) == [] && ToFail([], max) == [];
  }

  /** What a crash during the analysis leaves. */
  function Interrupted(c: Config, k: nat): State {
    Cold(c, k).(w := Cold(c, k).w.(rows := map[0 := Row(Running, k, 0, None, 0)]))
  }

  lemma Interrupts(c: Config, k: nat, n: nat)
    requires c.workers > 0 && Reached(c, Cold(c, k), n)
    ensures Reached(c, Interrupted(c, k), n + 1)
  {
    QueuesAgain(c, k, n);
    ComesUp(c, k, n);
    var s := Queued(c, k).(rp := Waiting, up := true);
    WorkerStarts(c, s, n);
    assert Apply(c, Started(s), Crash) == Interrupted(c, k);
    Step(c, Started(s), n + 1, Crash, Interrupted(c, k));
  }

  /** The claim of the interrupted job is open. */
  function Claimed(c: Config, k: nat): State {
    Interrupted(c, k).(rp := Selected([Claim(0, k, 0)]))
  }

  lemma Claims(c: Config, k: nat, n: nat)
    requires Reached(c, Interrupted(c, k), n)
    ensures Reached(c, Claimed(c, k), n)
  {
    var s := Interrupted(c, k);
    assert ListsPending(s, []);
    var s1 := s.(rp := Listed([]));
    Step(c, s, n, Reap(ListPending([])), s1);
    SelectJob(c, s1, n, k);
  }

  /** Start, crash, recover: two status changes for one requeue. */
  lemma Cycle(c: Config, k: nat, n: nat)
    requires c.workers > 0 && k < c.maxRequeue && Reached(c, Cold(c, k), n)
    ensures Reached(c, Cold(c, k + 1), n + 2)
  {
    Interrupts(c, k, n);
    Claims(c, k, n + 1);
    var s := Claimed(c, k);
    OneClaim(s.w.rows, Claim(0, k, 0), c.maxRequeue, 0);
    var t := s.(w := Cold(c, k + 1).w, rp := Requeueing([0], []));
    assert t.w.rows == s.w.rows[0 := Row(Pending, k + 1, 0, None, 0)];
    assert Apply(c, s, Reap(CommitRecovery)) == t;
    Step(c, s, n + 1, Reap(CommitRecovery), t);
    Step(c, t, n + 2, Crash, Cold(c, k + 1));
  }

  /** Any number of requeues within the allowance is reached. */
  lemma {:induction false} ColdReached(c: Config, k: nat)
    requires c.workers > 0 && k <= c.maxRequeue
    ensures Reached(c, Cold(c, k), 2 * k)
  {
    if k == 0 {
      ColdStart(c);
    } else {
      ColdReached(c, k - 1);
      Cycle(c, k - 1, 2 * (k - 1));
    }
  }

  // ------------------------------------------------------------------ the clash

  /** The reaper has read job 0 as RUNNING, its allowance used up, while worker 0 holds its finished analysis. */
  predicate Clash(c: Config, s: State, product: Option<Artefact>) {
    && GateOpen(c, s) && |s.workers| > 0
    && s.workers[0].Rca? && s.workers[0].job == 0 && s.workers[0].path == 0
    && s.workers[0].phase == Over(product, false)
    && HasRow(s.w, 0, Running, 0) && s.w.rows[0].requeues == c.maxRequeue && s.w.rows[0].result.None?
    && 0 in s.w.files && 0 !in s.w.spring
    && s.rp == Selected([Claim(0, c.maxRequeue, 0)])
  }

  /** Workers run while recovery does: it reads a job a worker has just started. */
  lemma StartupRace(c: Config, product: Option<Artefact>) returns (s: State)
    requires !c.gated && c.workers > 0
    ensures Reached(c, s, 2 * c.maxRequeue + 1) && Clash(c, s, product)
  {
    var m := c.maxRequeue;
    ColdReached(c, m);
    QueuesAgain(c, m, 2 * m);
    WorkerStarts(c, Queued(c, m), 2 * m);
    var s1 := Started(Queued(c, m));
    SelectJob(c, s1, 2 * m + 1, m);
    var s2 := s1.(rp := Selected([Claim(0, m, 0)]));
    var s3 := Apply(c, s2, Work(0, BeginAttempt));
    Step(c, s2, 2 * m + 1, Work(0, BeginAttempt), s3);
    s := Apply(c, s3, Work(0, EndAttempt(Returned(product))));
    Step(c, s3, 2 * m + 1, Work(0, EndAttempt(Returned(product))), s);
  }

  /** The only job is in attempt `tries` + 1; worker 0 has it, everybody else rests. */
  predicate Analysing(c: Config, s: State, tries: nat, since: int, now: int) {
    && s.up && s.rp.Waiting? && |s.workers| > 0 && s.w.ingests == map[] && s.cln.Quiet?
    && (forall i :: 1 <= i < |s.workers| ==> s.workers[i].Idle?)
    && s.workers[0] == Rca(0, 0, Trying, tries, since, c.overhead)
    && s.w.rows == map[0 := Row(Running, c.maxRequeue, 0, None, 0)] && 0 in s.w.files && 0 !in s.w.spring
    && s.w.now == now
  }

  /** The allowance is used up and the worker has just started. */
  lemma LastStart(c: Config) returns (s: State)
    requires c.workers > 0
    ensures Reached(c, s, 2 * c.maxRequeue + 1) && s == Started(Queued(c, c.maxRequeue).(rp := Waiting, up := true))
  {
    var m := c.maxRequeue;
    ColdReached(c, m);
    QueuesAgain(c, m, 2 * m);
    ComesUp(c, m, 2 * m);
    WorkerStarts(c, Queued(c, m).(rp := Waiting, up := true), 2 * m);
    s := Started(Queued(c, m).(rp := Waiting, up := true));
  }

  /** Time passes while only worker 0 is busy, within its bounds. */
  lemma Waits(c: Config, s: State, n: nat, d: nat)
    requires Reached(c, s, n) && |s.workers| > 0 && s.w.ingests == map[] && s.cln.Quiet?
    requires forall i :: 1 <= i < |s.workers| ==> s.workers[i].Idle?
    requires WithinBounds(c, s.workers[0], s.w.now + d)
    ensures Reached(c, Later(s, d), n)
  {
    OthersIdle(c, s, d);
    Step(c, s, n, Tick(d), Later(s, d));
  }

  lemma SlowStart(c: Config) returns (s: State)
    requires c.workers > 0
    ensures Reached(c, s, 2 * c.maxRequeue + 1) && Analysing(c, s, 0, c.overhead, c.overhead)
  {
    var n := 2 * c.maxRequeue + 1;
    var s1 := LastStart(c);
    Waits(c, s1, n, c.overhead);
    var s2 := Later(s1, c.overhead);
    s := Apply(c, s2, Work(0, BeginAttempt));
    Step(c, s2, n, Work(0, BeginAttempt), s);
  }

  /** The first attempt uses all its time and fails. */
  lemma FirstFails(c: Config, s: State, n: nat) returns (t: State)
    requires Reached(c, s, n) && Analysing(c, s, 0, c.overhead, c.overhead)
    ensures t == Later(s, c.attemptCap).(workers := s.workers[0 := Rca(0, 0, Before, 1, c.overhead + c.attemptCap, c.overhead)])
    ensures Reached(c, t, n)
  {
    Waits(c, s, n, c.attemptCap);
    var s1 := Later(s, c.attemptCap);
    t := s1.(workers := s1.workers[0 := Rca(0, 0, Before, 1, c.overhead + c.attemptCap, c.overhead)]);
    Step(c, s1, n, Work(0, EndAttempt(Raised)), t);
  }

  /** So does most of the second. */
  lemma SlowRetry(c: Config, s: State, n: nat) returns (t: State)
    requires Reached(c, s, n) && Analysing(c, s, 0, c.overhead, c.overhead)
    ensures Reached(c, t, n) && Analysing(c, t, 1, c.overhead + c.attemptCap, c.overhead + 2 * c.attemptCap)
  {
    var s2 := FirstFails(c, s, n);
    var s3 := s2.(workers := s2.workers[0 := Rca(0, 0, Trying, 1, c.overhead + c.attemptCap, c.overhead)]);
    Step(c, s2, n, Work(0, BeginAttempt), s3);
    Waits(c, s3, n, c.attemptCap);
    t := Later(s3, c.attemptCap);
  }

  /** Analysis, retry and overhead outlast the reaper's threshold: it may select the job under analysis. */
  lemma LongRun(c: Config) returns (s: State)
    requires 2 * c.attemptCap + c.overhead > c.stuckAfter && c.workers > 0
    ensures Reached(c, s, 2 * c.maxRequeue + 1)
    ensures Analysing(c, s, 1, c.overhead + c.attemptCap, c.overhead + 2 * c.attemptCap)
    ensures Enabled(c, s, Reap(SelectRunning([Claim(0, c.maxRequeue, 0)])))
    ensures Reached(c, s.(rp := Selected([Claim(0, c.maxRequeue, 0)])), 2 * c.maxRequeue + 1)
  {
    var s0 := SlowStart(c);
    s := SlowRetry(c, s0, 2 * c.maxRequeue + 1);
    SelectJob(c, s, 2 * c.maxRequeue + 1, c.maxRequeue);
  }

  lemma LongRunClash(c: Config, product: Option<Artefact>) returns (t: State)
    requires 2 * c.attemptCap + c.overhead > c.stuckAfter && c.workers > 0
    ensures Reached(c, t, 2 * c.maxRequeue + 1) && Clash(c, t, product)
  {
    var s := LongRun(c);
    var s1 := s.(rp := Selected([Claim(0, c.maxRequeue, 0)]));
    t := Apply(c, s1, Work(0, EndAttempt(Returned(product))));
    Step(c, s1, 2 * c.maxRequeue + 1, Work(0, EndAttempt(Returned(product))), t);
  }

  /** Either way: without order, reaper and worker end up with the same job. */
  lemma Clashes(c: Config, product: Option<Artefact>) returns (s: State)
    requires !Orderly(c) && c.workers > 0
    ensures Reached(c, s, 2 * c.maxRequeue + 1) && Clash(c, s, product)
  {
    if !c.gated {
      s := StartupRace(c, product);
    } else {
      s := LongRunClash(c, product);
    }
  }

  // ------------------------------------------------------------------ what the clash breaks

  /** Worker and reaper hold the job. */
  lemma TwoHolders(c: Config, s: State, product: Option<Artefact>)
    requires Clash(c, s, product)
    ensures !OneHolder(s)
  {
    assert Jobs([Claim(0, c.maxRequeue, 0)])[0] in ReaperJobs(s.rp);
  }

  /** The worker's report is accepted; the reaper's claim is still open. */
  lemma Accepts(c: Config, s: State, n: nat) returns (t: State)
    requires Reached(c, s, n) && Clash(c, s, Some(7))
    ensures Reached(c, t, n + 1) && GateOpen(c, t) && HasRow(t.w, 0, Delivering, 0) && t.rp == s.rp
    ensures |t.workers| > 0 && t.workers[0] == Finalizing(0, 0, 7, true)
  {
    var s1 := Apply(c, s, Work(0, CommitProduct));
    Step(c, s, n, Work(0, CommitProduct), s1);
    t := Apply(c, s1, Work(0, PostResult(Answer(200), true)));
    Step(c, s1, n + 1, Work(0, PostResult(Answer(200), true)), t);
  }

  /** The worker marks the row DONE. */
  lemma Delivered(c: Config, s: State, n: nat) returns (t: State)
    requires Reached(c, s, n) && Clash(c, s, Some(7))
    ensures Reached(c, t, n + 2) && HasRow(t.w, 0, Done, 0) && t.rp == s.rp
  {
    var s1 := Accepts(c, s, n);
    t := Apply(c, s1, Work(0, Finalize));
    Step(c, s1, n + 1, Work(0, Finalize), t);
  }

  /** The commit of recovery turns the DONE row into FAILED. */
  lemma Overwrites(c: Config, s: State, n: nat)
    requires Reached(c, s, n) && HasRow(s.w, 0, Done, 0) && s.rp == Selected([Claim(0, c.maxRequeue, 0)])
    ensures Enabled(c, s, Reap(CommitRecovery)) && HasRow(Apply(c, s, Reap(CommitRecovery)).w, 0, Failed, 0)
    ensures Reached(c, Apply(c, s, Reap(CommitRecovery)), n + 1)
  {
    var t := Apply(c, s, Reap(CommitRecovery));
    OneClaim(s.w.rows, Claim(0, c.maxRequeue, 0), c.maxRequeue, s.w.now);
    Step(c, s, n, Reap(CommitRecovery), t);
  }

  /** The reaper fails the job and tells Spring under the worker's feet. */
  lemma Fails(c: Config, s: State, n: nat, product: Option<Artefact>) returns (t: State)
    requires Reached(c, s, n) && Clash(c, s, product)
    ensures Reached(c, t, n) && GateOpen(c, t) && t.workers == s.workers && HasRow(t.w, 0, Failed, 0) && t.w.rows[0].result.None?
    ensures 0 in t.w.spring && t.w.spring[0].Notice? && t.rp == Discard([Claim(0, c.maxRequeue, 0)])
  {
    var s1 := Apply(c, s, Reap(CommitRecovery));
    OneClaim(s.w.rows, Claim(0, c.maxRequeue, 0), c.maxRequeue, s.w.now);
    assert s1.rp == Requeueing([], [Claim(0, c.maxRequeue, 0)]);
    Step(c, s, n, Reap(CommitRecovery), s1);
    t := Apply(c, s1, Reap(NotifyFailed(Answer(200), true)));
    Step(c, s1, n, Reap(NotifyFailed(Answer(200), true)), t);
  }

  /** The row is DELIVERING while Spring holds a failure notice. */
  lemma Contradicts(c: Config, s: State, n: nat) returns (t: State)
    requires Reached(c, s, n) && Clash(c, s, Some(7))
    ensures Reached(c, t, n) && HasRow(t.w, 0, Delivering, 0) && 0 in t.w.spring && t.w.spring[0].Notice?
  {
    var s1 := Fails(c, s, n, Some(7));
    t := Apply(c, s1, Work(0, CommitProduct));
    Step(c, s1, n, Work(0, CommitProduct), t);
  }

  /** The row is DONE without a result while Spring holds a failure notice. */
  lemma DoneAndFailed(c: Config, s: State, n: nat) returns (t: State)
    requires Reached(c, s, n) && Clash(c, s, None)
    ensures Reached(c, t, n) && HasRow(t.w, 0, Done, 0) && t.w.rows[0].result.None? && 0 in t.w.spring
  {
    var s1 := Fails(c, s, n, None);
    t := Apply(c, s1, Work(0, CommitNothing));
    Step(c, s1, n, Work(0, CommitNothing), t);
  }

  /** The reaper discards the file and the worker then starts delivering. */
  lemma ClashLosesFile(c: Config, s: State, n: nat)
    requires Reached(c, s, n) && Clash(c, s, Some(7))
    ensures exists t :: Reachable(c, t) && !FileSafe(t)
  {
    var s1 := Fails(c, s, n, Some(7));
    var s2 := Apply(c, s1, Reap(DropFailed(true)));
    Step(c, s1, n, Reap(DropFailed(true)), s2);
    var s3 := Apply(c, s2, Work(0, CommitProduct));
    Step(c, s2, n, Work(0, CommitProduct), s3);
    ReachedIsReachable(c, s3, n);
    Unsafe(c, s3, 0);
  }

  lemma StartupRaceLosesFile(c: Config)
    requires !c.gated && c.workers > 0
    ensures exists s :: Reachable(c, s) && !FileSafe(s)
  {
    var s := StartupRace(c, Some(7));
    ClashLosesFile(c, s, 2 * c.maxRequeue + 1);
  }

  lemma LongRunLosesFile(c: Config)
    requires 2 * c.attemptCap + c.overhead > c.stuckAfter && c.workers > 0
    ensures exists s :: Reachable(c, s) && !FileSafe(s)
  {
    var s := LongRunClash(c, Some(7));
    ClashLosesFile(c, s, 2 * c.maxRequeue + 1);
  }

  /** A worker starts a job after recovery has looked for RUNNING rows. */
  lemma RunsDuringRecovery(c: Config) returns (s: State)
    requires !c.gated && c.workers > 0
    ensures Reachable(c, s) && !s.up && Enabled(c, s, Reap(Rest)) && HasRow(s.w, 0, Running, 0)
  {
    ColdReached(c, 0);
    QueuesAgain(c, 0, 0);
    CommitsNothing(c, Queued(c, 0), 0);
    var s0 := Queued(c, 0).(rp := Requeueing([], []));
    WorkerStarts(c, s0, 0);
    s := Started(s0);
    ReachedIsReachable(c, s, 1);
  }
}
