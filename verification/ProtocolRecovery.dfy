/** The reaper, startup recovery, the clock and crashes keep the invariant; so every event does. */
module ProtocolRecovery {
  import opened JobProtocol
  import opened ProtocolInvariant
  import opened ProtocolSteps
  import opened ProtocolActors

  // ------------------------------------------------------------------ the pure pieces of _recover_running

  predicate DistinctJobs(claims: seq<Claim>) {
    forall a, b :: 0 <= a < b < |claims| ==> claims[a].job != claims[b].job
  }

  /** Recovery rewrites exactly the claimed rows, each by its own allowance. */
  lemma {:induction false} RecoverRowsAt(rows: map<JobId, Row>, claims: seq<Claim>, max: nat, now: int)
    requires DistinctJobs(claims) && forall k :: 0 <= k < |claims| ==> claims[k].job in rows
    ensures var t := RecoverRows(rows, claims, max, now);
      && t.Keys == rows.Keys
      && (forall k :: 0 <= k < |claims| ==> t[claims[k].job] == RecoverRow(rows[claims[k].job], claims[k], max, now))
      && (forall j :: j in rows && j !in Jobs(claims) ==> t[j] == rows[j])
  {
    if claims != [] {
      RecoverRowsAt(rows, claims[1..], max, now);
      forall k | 1 <= k < |claims| ensures claims[k] == claims[1..][k - 1] {
      }
      forall j | j in Jobs(claims[1..]) ensures j in Jobs(claims) {
        var k :| 0 <= k < |claims[1..]| && Jobs(claims[1..])[k] == j;
        assert Jobs(claims)[k + 1] == j;
      }
      assert Jobs(claims)[0] == claims[0].job;
    }
  }

  lemma {:induction false} EnqMember(claims: seq<Claim>, max: nat, j: JobId)
    ensures j in ToEnqueue(claims, max) <==> exists k :: 0 <= k < |claims| && claims[k].job == j && claims[k].requeues < max
  {
    if claims != [] {
      EnqMember(claims[1..], max, j);
      forall k | 1 <= k < |claims| ensures claims[1..][k - 1] == claims[k] {}
      forall k | 0 <= k < |claims| - 1 ensures claims[1..][k] == claims[k + 1] {}
    }
  }

  lemma {:induction false} FailMember(claims: seq<Claim>, max: nat, cl: Claim)
    ensures cl in ToFail(claims, max) <==> cl in claims && cl.requeues >= max
  {
    if claims != [] {
      FailMember(claims[1..], max, cl);
      assert claims == [claims[0]] + claims[1..];
    }
  }

  lemma {:induction false} EnqNoDup(claims: seq<Claim>, max: nat)
    requires DistinctJobs(claims)
    ensures NoDup(ToEnqueue(claims, max))
  {
    if claims != [] {
      EnqNoDup(claims[1..], max);
      EnqMember(claims[1..], max, claims[0].job);
      forall k | 0 <= k < |claims| - 1 ensures claims[1..][k].job != claims[0].job {
        assert claims[1..][k] == claims[k + 1];
      }
      ConsNoDup(claims[0].job, ToEnqueue(claims[1..], max));
      assert ToEnqueue(claims, max)
             == (if claims[0].requeues < max then [claims[0].job] else []) + ToEnqueue(claims[1..], max);
    }
  }

  /** The two lists split the claims by allowance. */
  lemma {:induction false} SplitClaims(claims: seq<Claim>, max: nat)
    requires DistinctJobs(claims)
    ensures NoDup(ToEnqueue(claims, max))
    ensures forall j :: j in ToEnqueue(claims, max) <==> exists k :: 0 <= k < |claims| && claims[k].job == j && claims[k].requeues < max
    ensures forall cl :: cl in ToFail(claims, max) <==> cl in claims && cl.requeues >= max
  {
    EnqNoDup(claims, max);
    forall j ensures j in ToEnqueue(claims, max) <==> exists k :: 0 <= k < |claims| && claims[k].job == j && claims[k].requeues < max {
      EnqMember(claims, max, j);
    }
    forall cl ensures cl in ToFail(claims, max) <==> cl in claims && cl.requeues >= max {
      FailMember(claims, max, cl);
    }
  }

  lemma ConsNoDup(j: JobId, s: seq<JobId>)
    requires NoDup(s)
    ensures j !in s ==> NoDup([j] + s)
  {
  }

  // ------------------------------------------------------------------ selecting

  /** Timed safety: a worker inside the analysis is never past the reaper's threshold. */
  lemma LiveIsNotStuck(c: Config, s: State, i: nat)
    requires Orderly(c) && WorkersOk(c, s) && s.up && i < |s.workers| && s.workers[i].Rca?
    ensures s.workers[i].job in s.w.rows && !Stuck(c, s, s.w.rows[s.workers[i].job])
  {
    assert WorkerOk(c, s.w, s.workers[i]);
  }

  lemma ClaimedIsFree(c: Config, s: State, j: JobId)
    requires Orderly(c) && Inv(c, s) && j in s.w.rows && Stuck(c, s, s.w.rows[j])
    ensures j !in s.queue && !AboutToEnqueue(s.w, j)
    ensures forall i :: 0 <= i < |s.workers| && Holds(s.workers[i]) ==> s.workers[i].job != j
  {
    forall k | k in s.queue ensures k != j {
      QueuedRow(s.w, s.queue, k);
    }
    forall p | p in s.w.ingests ensures s.w.ingests[p] != Committed(j) {
      assert IngestOk(c, s.w, p);
    }
    forall i | 0 <= i < |s.workers| && Holds(s.workers[i]) ensures s.workers[i].job != j {
      assert WorkerOk(c, s.w, s.workers[i]);
      if s.up && s.workers[i].Rca? {
        LiveIsNotStuck(c, s, i);
      }
    }
  }

  lemma SelectHolder(c: Config, s: State, claims: seq<Claim>)
    requires Orderly(c) && Inv(c, s) && ListsStuck(c, s, claims) && ReaperJobs(s.rp) == []
    ensures OneHolder(s.(rp := Selected(claims)))
  {
    var s' := s.(rp := Selected(claims));
    assert ReaperJobs(s'.rp) == Jobs(claims);
    forall j | j in Jobs(claims)
      ensures j !in s.queue && !AboutToEnqueue(s.w, j)
      ensures forall i :: 0 <= i < |s.workers| && Holds(s.workers[i]) ==> s.workers[i].job != j
    {
      var k :| 0 <= k < |claims| && Jobs(claims)[k] == j;
      assert ClaimOf(c, s, claims[k]);
      ClaimedIsFree(c, s, j);
    }
  }

  lemma SelectKeeps(c: Config, s: State, claims: seq<Claim>)
    requires Orderly(c) && Inv(c, s) && ReaperEnabled(c, s, SelectRunning(claims))
    ensures Keeps(c, s, s.(rp := Selected(claims)), {})
  {
    SameWorld(c, s.w);
    SelectHolder(c, s, claims);
    forall k | 0 <= k < |claims| ensures ClaimOk(s.w, claims[k]) {
      assert ClaimOf(c, s, claims[k]);
    }
    if !s.up {
      forall j | j in s.w.rows && s.w.rows[j].status.Running? ensures j in Jobs(claims) {
        assert Stuck(c, s, s.w.rows[j]);
        var k :| 0 <= k < |claims| && claims[k].job == j;
        assert Jobs(claims)[k] == j;
      }
    }
  }

  // ------------------------------------------------------------------ committing

  function Commits(c: Config, s: State): State
    requires s.rp.Selected?
  {
    s.(w := s.w.(rows := RecoverRows(s.w.rows, s.rp.claims, c.maxRequeue, s.w.now)),
       rp := Requeueing(ToEnqueue(s.rp.claims, c.maxRequeue), ToFail(s.rp.claims, c.maxRequeue)))
  }

  /** The reaper holds its claims, and they repeat the rows. */
  ghost predicate Claiming(c: Config, s: State) {
    && s.rp.Selected? && WorldOk(c, s.w) && ReaperOk(s.w, s.rp) && DistinctJobs(s.rp.claims)
    && (forall k :: 0 <= k < |s.rp.claims| ==> s.rp.claims[k].job in s.w.rows)
    && (forall j :: j in Jobs(s.rp.claims) ==> !AboutToEnqueue(s.w, j))
  }

  lemma IsClaiming(c: Config, s: State)
    requires Inv(c, s) && s.rp.Selected?
    ensures Claiming(c, s)
  {
    forall a, b | 0 <= a < b < |s.rp.claims| ensures s.rp.claims[a].job != s.rp.claims[b].job {
      assert Jobs(s.rp.claims)[a] != Jobs(s.rp.claims)[b];
    }
    forall k | 0 <= k < |s.rp.claims| ensures s.rp.claims[k].job in s.w.rows {
      assert ClaimOk(s.w, s.rp.claims[k]);
    }
  }

  lemma RecoveredRow(c: Config, s: State, k: nat)
    requires Claiming(c, s) && k < |s.rp.claims|
    ensures ClaimOk(s.w, s.rp.claims[k]) && s.rp.claims[k].requeues <= c.maxRequeue
    ensures var cl := s.rp.claims[k];
      RowStep(c, s.w.rows[cl.job], RecoverRow(s.w.rows[cl.job], cl, c.maxRequeue, s.w.now))
    ensures !AboutToEnqueue(s.w, s.rp.claims[k].job)
  {
    var cl := s.rp.claims[k];
    assert ClaimOk(s.w, cl);
    assert RowOk(c, s.w, cl.job);
    assert Jobs(s.rp.claims)[k] == cl.job;
  }

  ghost function ClaimSet(s: State): set<JobId>
    requires s.rp.Selected?
  {
    set j | j in Jobs(s.rp.claims)
  }

  /** Row by row, what the commit of recovery does. */
  ghost predicate Recovered(c: Config, s: State, w: World)
    requires s.rp.Selected?
  {
    && w == s.w.(rows := w.rows) && w.rows.Keys == s.w.rows.Keys
    && (forall j :: j in w.rows ==> RowStep(c, s.w.rows[j], w.rows[j]))
    && (forall j :: j in w.rows && j !in ClaimSet(s) ==> w.rows[j] == s.w.rows[j])
    && (forall j :: j in w.rows && j in ClaimSet(s) ==> s.w.rows[j].status.Running? && w.rows[j].updated == s.w.now)
  }

  lemma RecoverRowsOk(c: Config, s: State)
    requires Claiming(c, s)
    ensures Recovered(c, s, Commits(c, s).w)
  {
    var rows := Commits(c, s).w.rows;
    RecoverRowsAt(s.w.rows, s.rp.claims, c.maxRequeue, s.w.now);
    forall j | j in rows
      ensures RowStep(c, s.w.rows[j], rows[j])
      ensures j in ClaimSet(s) ==> rows[j].updated == s.w.now && s.w.rows[j].status.Running?
    {
      if j in ClaimSet(s) {
        var k :| 0 <= k < |s.rp.claims| && s.rp.claims[k].job == j;
        RecoveredRow(c, s, k);
      }
    }
  }

  lemma RecoveredRowsOk(c: Config, s: State, w: World, j: JobId)
    requires WorldOk(c, s.w) && s.rp.Selected? && Recovered(c, s, w) && j in w.rows
    ensures RowOk(c, w, j) && w.rows[j].path == s.w.rows[j].path
  {
    assert RowOk(c, s.w, j);
    assert RowStep(c, s.w.rows[j], w.rows[j]);
  }

  lemma RecoveredIngestsOk(c: Config, s: State, w: World, p: FileName)
    requires WorldOk(c, s.w) && s.rp.Selected? && Recovered(c, s, w) && p in w.ingests
    requires forall j :: j in w.rows ==> w.rows[j].path == s.w.rows[j].path
    ensures IngestOk(c, w, p)
  {
    assert IngestOk(c, s.w, p);
  }

  lemma RecoveredWorldOk(c: Config, s: State, w: World)
    requires WorldOk(c, s.w) && s.rp.Selected? && Recovered(c, s, w)
    ensures WorldOk(c, w) && Guarantee(c, s.w, w, ClaimSet(s))
  {
    forall j | j in w.rows ensures RowOk(c, w, j) && w.rows[j].path == s.w.rows[j].path {
      RecoveredRowsOk(c, s, w, j);
    }
    forall p | p in w.ingests ensures IngestOk(c, w, p) {
      RecoveredIngestsOk(c, s, w, p);
    }
  }

  lemma RecoverEnq(c: Config, s: State)
    requires Claiming(c, s)
    ensures var s' := Commits(c, s);
      AllPending(s'.w, s'.rp.enq) && NoDup(s'.rp.enq) && forall j :: j in s'.rp.enq ==> j in ClaimSet(s)
  {
    var s' := Commits(c, s);
    RecoverRowsAt(s.w.rows, s.rp.claims, c.maxRequeue, s.w.now);
    SplitClaims(s.rp.claims, c.maxRequeue);
    forall j | j in s'.rp.enq ensures PendingRow(s'.w, j) && j in ClaimSet(s) {
      var k :| 0 <= k < |s.rp.claims| && s.rp.claims[k].job == j && s.rp.claims[k].requeues < c.maxRequeue;
      assert Jobs(s.rp.claims)[k] == j;
    }
  }

  lemma RecoverFail(c: Config, s: State)
    requires Claiming(c, s) && WorldOk(c, Commits(c, s).w)
    ensures var s' := Commits(c, s); FailsOk(s'.w, s'.rp.fail)
  {
    var s' := Commits(c, s);
    RecoverRowsAt(s.w.rows, s.rp.claims, c.maxRequeue, s.w.now);
    SplitClaims(s.rp.claims, c.maxRequeue);
    forall k | 0 <= k < |s'.rp.fail| ensures Notifier(s'.w, s'.rp.fail[k].job, s'.rp.fail[k].path) {
      var cl := s'.rp.fail[k];
      assert cl in s'.rp.fail;
      var m :| 0 <= m < |s.rp.claims| && s.rp.claims[m] == cl;
      RecoveredRow(c, s, m);
      assert RowOk(c, s.w, cl.job);
      DeadAfterEnd(c, s'.w, cl.job);
    }
  }

  /** The claimed rows belong to the reaper alone. */
  lemma ClaimSetHeld(s: State, j: JobId)
    requires OneHolder(s) && s.rp.Selected? && j in ClaimSet(s)
    ensures j !in s.queue && !AboutToEnqueue(s.w, j)
    ensures forall i :: 0 <= i < |s.workers| && Holds(s.workers[i]) ==> s.workers[i].job != j
  {
    assert j in ReaperJobs(s.rp);
  }

  lemma RecoverBystanders(c: Config, s: State, w: World)
    requires WorldOk(c, s.w) && WorkersOk(c, s) && AllPending(s.w, s.queue) && OneHolder(s) && s.rp.Selected?
    requires ReconcilerOk(c, s.w, s.rec) && CleanerOk(c, s.w, s.cln)
    requires Guarantee(c, s.w, w, ClaimSet(s)) && w.files == s.w.files
    ensures forall i :: 0 <= i < |s.workers| ==> WorkerOk(c, w, s.workers[i])
    ensures AllPending(w, s.queue) && ReconcilerOk(c, w, s.rec) && CleanerOk(c, w, s.cln)
  {
    var js := ClaimSet(s);
    forall i | 0 <= i < |s.workers| ensures WorkerOk(c, w, s.workers[i]) {
      assert WorkerOk(c, s.w, s.workers[i]);
      if Holds(s.workers[i]) && s.workers[i].job in js {
        ClaimSetHeld(s, s.workers[i].job);
      }
      FrameWorker(c, s.w, w, js, s.workers[i]);
    }
    forall j | j in js ensures j !in s.queue {
      ClaimSetHeld(s, j);
    }
    FramePending(c, s.w, w, js, s.queue);
    FrameReconciler(c, s.w, w, js, s.rec);
    FrameCleaner(c, s.w, w, js, s.cln);
  }

  lemma RecoverHolder(s: State, s': State)
    requires OneHolder(s) && s.rp.Selected?
    requires s'.queue == s.queue && s'.workers == s.workers && s'.w.ingests == s.w.ingests
    requires NoDup(ReaperJobs(s'.rp)) && forall j :: j in ReaperJobs(s'.rp) ==> j in ClaimSet(s)
    ensures OneHolder(s')
  {
    assert forall j :: AboutToEnqueue(s'.w, j) <==> AboutToEnqueue(s.w, j);
    forall j | j in ReaperJobs(s'.rp)
      ensures j !in s'.queue && !AboutToEnqueue(s'.w, j)
      ensures forall i :: 0 <= i < |s.workers| && Holds(s.workers[i]) ==> s.workers[i].job != j
    {
      ClaimSetHeld(s, j);
    }
  }

  /** A recovered row is not RUNNING, and is PENDING only if it was or if it is about to be queued. */
  lemma RecoverBootRow(c: Config, s: State, j: JobId)
    requires Claiming(c, s) && j in Commits(c, s).w.rows
    requires j in s.w.rows && s.w.rows[j].status.Running? ==> j in Jobs(s.rp.claims)
    ensures !Commits(c, s).w.rows[j].status.Running?
    ensures PendingRow(Commits(c, s).w, j) ==> PendingRow(s.w, j) || j in Commits(c, s).rp.enq
  {
    RecoverRowsAt(s.w.rows, s.rp.claims, c.maxRequeue, s.w.now);
    SplitClaims(s.rp.claims, c.maxRequeue);
    if j in Jobs(s.rp.claims) {
      var k :| 0 <= k < |s.rp.claims| && Jobs(s.rp.claims)[k] == j;
      assert s.rp.claims[k].job == j;
    }
  }

  lemma RecoverBoot(c: Config, s: State)
    requires Claiming(c, s) && BootOk(s)
    ensures BootOk(Commits(c, s))
  {
    var s' := Commits(c, s);
    if !s.up {
      RecoverRowsAt(s.w.rows, s.rp.claims, c.maxRequeue, s.w.now);
      forall j | j in s'.w.rows
        ensures !s'.w.rows[j].status.Running?
        ensures PendingRow(s'.w, j) ==> j in s'.queue || j in ReaperJobs(s'.rp)
      {
        RecoverBootRow(c, s, j);
      }
    }
  }

  /** The commit of recovery as seen by the world and by the reaper itself. */
  lemma CommitWorld(c: Config, s: State)
    requires Claiming(c, s) && OneHolder(s) && BootOk(s)
    ensures var s' := Commits(c, s);
      WorldOk(c, s'.w) && Guarantee(c, s.w, s'.w, ClaimSet(s)) && ReaperOk(s'.w, s'.rp) && OneHolder(s') && BootOk(s')
  {
    var s' := Commits(c, s);
    RecoverRowsOk(c, s);
    RecoveredWorldOk(c, s, s'.w);
    RecoverEnq(c, s);
    RecoverFail(c, s);
    RecoverHolder(s, s');
    RecoverBoot(c, s);
  }

  lemma CommitKeeps(c: Config, s: State)
    requires Orderly(c) && Inv(c, s) && ReaperEnabled(c, s, CommitRecovery)
    ensures Keeps(c, s, Commits(c, s), ClaimSet(s))
  {
    IsClaiming(c, s);
    CommitWorld(c, s);
    RecoverBystanders(c, s, Commits(c, s).w);
  }

  // ------------------------------------------------------------------ handing over

  lemma ListKeeps(c: Config, s: State, ids: seq<JobId>)
    requires Orderly(c) && Inv(c, s) && ReaperEnabled(c, s, ListPending(ids))
    ensures Keeps(c, s, s.(rp := Listed(ids)), {})
  {
    SameWorld(c, s.w);
    forall k | 0 <= k < |ids| ensures PendingRow(s.w, ids[k]) {
      assert ids[k] in ids;
    }
  }

  /** The job at the head of the reaper's list moves to the end of the queue. */
  lemma HandOver(s: State, s': State, j: JobId)
    requires OneHolder(s) && ReaperJobs(s.rp) == [j] + ReaperJobs(s'.rp)
    requires s'.w == s.w && s'.workers == s.workers && s'.queue == s.queue + [j]
    ensures OneHolder(s')
  {
    var a := ReaperJobs(s.rp);
    var b := ReaperJobs(s'.rp);
    assert a[0] == j && j in a;
    forall k | 0 <= k < |b| ensures b[k] in a && b[k] != j {
      assert a[k + 1] == b[k];
    }
    forall x, y | 0 <= x < y < |b| ensures b[x] != b[y] {
      assert a[x + 1] == b[x] && a[y + 1] == b[y];
    }
  }

  lemma GrowPending(w: World, queue: seq<JobId>, j: JobId)
    requires AllPending(w, queue) && PendingRow(w, j)
    ensures AllPending(w, queue + [j])
  {
    forall k | 0 <= k < |queue + [j]| ensures PendingRow(w, (queue + [j])[k]) {
      if k < |queue| {
        assert PendingRow(w, queue[k]);
      }
    }
  }

  /** The reaper moves on, the world stays. */
  lemma ReaperMoves(c: Config, s: State, t: State)
    requires Inv(c, s) && t == s.(queue := t.queue, unfinished := t.unfinished, rp := t.rp, up := t.up)
    requires AllPending(s.w, t.queue) && ReaperOk(s.w, t.rp) && OneHolder(t) && BootOk(t)
    requires t.unfinished - |t.queue| == s.unfinished - |s.queue|
    ensures Keeps(c, s, t, {})
  {
    SameWorld(c, s.w);
    assert WorkersOk(c, t);
  }

  lemma HandOverBoot(s: State, t: State, j: JobId)
    requires BootOk(s) && ReaperJobs(s.rp) == [j] + ReaperJobs(t.rp) && t.queue == s.queue + [j]
    requires (s.rp.Listed? && t.rp.Listed?) || (s.rp.Requeueing? && t.rp.Requeueing?)
    requires t == s.(queue := t.queue, unfinished := t.unfinished, rp := t.rp)
    ensures BootOk(t)
  {
    if !s.up {
      forall k | PendingRow(s.w, k) ensures k in t.queue || k in ReaperJobs(t.rp) {
        assert k in s.queue || k in [j] + ReaperJobs(t.rp);
      }
    }
  }

  /** `Listed` and `Requeueing` hand over the head of their list alike. */
  lemma HandOverKeeps(c: Config, s: State, rp: Reaper, ids: seq<JobId>)
    requires Inv(c, s) && ids != []
    requires || (s.rp == Listed(ids) && rp == Listed(ids[1..]))
             || (s.rp.Requeueing? && s.rp.enq == ids && rp == Requeueing(ids[1..], s.rp.fail))
    ensures Keeps(c, s, s.(queue := s.queue + [ids[0]], unfinished := s.unfinished + 1, rp := rp), {})
  {
    var s' := s.(queue := s.queue + [ids[0]], unfinished := s.unfinished + 1, rp := rp);
    assert ids == [ids[0]] + ReaperJobs(rp);
    HandOver(s, s', ids[0]);
    HandOverBoot(s, s', ids[0]);
    assert PendingRow(s.w, ids[0]);
    GrowPending(s.w, s.queue, ids[0]);
    TailPending(s.w, ids);
    ReaperMoves(c, s, s');
  }

  // ------------------------------------------------------------------ giving up

  ghost predicate Failing(rp: Reaper) {
    rp.Discard? || rp.Reporting? || (rp.Requeueing? && rp.enq == [])
  }

  lemma FailHolder(s: State, w: World, rp: Reaper)
    requires OneHolder(s) && Failing(s.rp) && Failing(rp) && w.ingests == s.w.ingests
    ensures OneHolder(s.(w := w, rp := rp))
  {
    assert forall j :: AboutToEnqueue(w, j) <==> AboutToEnqueue(s.w, j);
  }

  lemma FailBoot(s: State, w: World, rp: Reaper)
    requires BootOk(s) && Failing(s.rp) && (rp.Discard? || rp.Reporting?)
    requires w.ingests == s.w.ingests && w.rows == s.w.rows
    ensures BootOk(s.(w := w, rp := rp))
  {
    assert forall j :: PendingRow(w, j) <==> PendingRow(s.w, j);
  }

  /** The reaper, holding no job, changes the world and moves on within its failure list. */
  lemma FailKeeps(c: Config, s: State, w: World, rp: Reaper)
    requires Inv(c, s) && Aside(c, s.w, w, {}) && w.ingests == s.w.ingests && w.rows == s.w.rows
    requires Failing(s.rp) && (rp.Discard? || rp.Reporting?) && FailsOk(w, rp.fail)
    ensures Keeps(c, s, s.(w := w, rp := rp), {})
  {
    AsideFrames(c, s, w, {});
    FailHolder(s, w, rp);
    FailBoot(s, w, rp);
  }

  lemma NotifyKeeps(c: Config, s: State, a: ReaperAct)
    requires Orderly(c) && Inv(c, s) && ReaperEnabled(c, s, a) && a.NotifyFailed?
    ensures Keeps(c, s, ApplyReaper(c, s, a), {})
  {
    var cl := s.rp.fail[0];
    var w := s.w.(spring := Posted(s.w.spring, cl.job, Notice, a.landed));
    assert Notifier(s.w, cl.job, cl.path);
    SpringChange(c, s.w, cl.job, Notice, a.landed);
    FrameFails(c, s.w, w, {}, s.rp.fail);
    FailKeeps(c, s, w, Discard(s.rp.fail));
  }

  lemma DropFailedKeeps(c: Config, s: State, deleted: bool)
    requires Orderly(c) && Inv(c, s) && ReaperEnabled(c, s, DropFailed(deleted))
    ensures Keeps(c, s, ApplyReaper(c, s, DropFailed(deleted)), {})
  {
    var fail := s.rp.fail;
    var w := s.w.(files := Discarded(s.w.files, fail[0].path, deleted));
    assert Notifier(s.w, fail[0].job, fail[0].path);
    FileChange(c, s.w, fail[0].path, deleted);
    FrameFails(c, s.w, w, {}, fail);
    forall k | 0 <= k < |fail[1..]| ensures Notifier(w, fail[1..][k].job, fail[1..][k].path) {
      assert fail[1..][k] == fail[k + 1];
    }
    FailKeeps(c, s, w, Reporting(fail[1..]));
  }

  lemma RestKeeps(c: Config, s: State)
    requires Inv(c, s)
    ensures Keeps(c, s, s.(rp := Waiting, up := true), {})
  {
    SameWorld(c, s.w);
    assert ReaperJobs(Waiting) == [];
  }

  lemma ReadingKeeps(c: Config, s: State, a: ReaperAct)
    requires Orderly(c) && Inv(c, s) && ReaperEnabled(c, s, a)
    requires a.ListPending? || a.SelectRunning? || a.Rest? || a.GiveUp?
    ensures Keeps(c, s, ApplyReaper(c, s, a), {})
  {
    match a
    case ListPending(ids) => ListKeeps(c, s, ids);
    case SelectRunning(claims) => SelectKeeps(c, s, claims);
    case _ => RestKeeps(c, s);
  }

  lemma QueueKeeps(c: Config, s: State)
    requires Inv(c, s) && ReaperEnabled(c, s, QueuePending)
    ensures Keeps(c, s, ApplyReaper(c, s, QueuePending), {})
  {
    HandOverKeeps(c, s, Listed(s.rp.ids[1..]), s.rp.ids);
  }

  lemma RequeueKeeps(c: Config, s: State)
    requires Inv(c, s) && ReaperEnabled(c, s, Requeue)
    ensures Keeps(c, s, ApplyReaper(c, s, Requeue), {})
  {
    HandOverKeeps(c, s, Requeueing(s.rp.enq[1..], s.rp.fail), s.rp.enq);
  }

  lemma ReaperKeeps(c: Config, s: State, a: ReaperAct) returns (js: set<JobId>)
    requires Orderly(c) && Inv(c, s) && ReaperEnabled(c, s, a)
    ensures Keeps(c, s, ApplyReaper(c, s, a), js)
  {
    js := {};
    if a.CommitRecovery? {
      js := ClaimSet(s);
      CommitKeeps(c, s);
    } else if a.NotifyFailed? {
      NotifyKeeps(c, s, a);
    } else if a.DropFailed? {
      DropFailedKeeps(c, s, a.deleted);
    } else if a.QueuePending? {
      QueueKeeps(c, s);
    } else if a.Requeue? {
      RequeueKeeps(c, s);
    } else {
      ReadingKeeps(c, s, a);
    }
  }

  // ------------------------------------------------------------------ clock and crash

  lemma TickWorld(c: Config, s: State, d: nat)
    requires WorldOk(c, s.w) && MayTick(c, s, d)
    ensures WorldOk(c, s.w.(now := s.w.now + d))
  {
    var w := s.w.(now := s.w.now + d);
    forall j | j in w.rows ensures RowOk(c, w, j) {
      assert RowOk(c, s.w, j);
    }
    forall p | p in w.ingests ensures IngestOk(c, w, p) {
      assert IngestOk(c, s.w, p);
    }
  }

  lemma TickSenders(c: Config, v: World, w: World, rec: Reconciler, rp: Reaper)
    requires w == v.(now := w.now) && ReconcilerOk(c, v, rec) && ReaperOk(v, rp)
    ensures ReconcilerOk(c, w, rec) && ReaperOk(w, rp)
  {
    match rec {
      case Resting =>
      case Walking(todo) => TickParcels(v, w, todo);
      case Loaded(_, _, todo) => TickParcels(v, w, todo);
      case Marking(_, _, todo) => TickParcels(v, w, todo);
      case Dropping(_, todo) => TickParcels(v, w, todo);
    }
    match rp
    case Selected(claims) =>
      forall k | 0 <= k < |claims| ensures ClaimOk(w, claims[k]) {
        assert ClaimOk(v, claims[k]);
      }
    case Listed(ids) => TickPending(v, w, ids);
    case Requeueing(enq, fail) =>
      TickPending(v, w, enq);
      TickFails(v, w, fail);
    case Reporting(fail) => TickFails(v, w, fail);
    case Discard(fail) => TickFails(v, w, fail);
    case _ =>
  }

  lemma TickParcels(v: World, w: World, todo: seq<Parcel>)
    requires w == v.(now := w.now) && ParcelsOk(v, todo)
    ensures ParcelsOk(w, todo)
  {
    forall k | 0 <= k < |todo| ensures ParcelOk(w, todo[k]) {
      assert ParcelOk(v, todo[k]);
    }
  }

  lemma TickPending(v: World, w: World, ids: seq<JobId>)
    requires w == v.(now := w.now) && AllPending(v, ids)
    ensures AllPending(w, ids)
  {
    forall k | 0 <= k < |ids| ensures PendingRow(w, ids[k]) {
      assert PendingRow(v, ids[k]);
    }
  }

  lemma TickFails(v: World, w: World, fail: seq<Claim>)
    requires w == v.(now := w.now) && FailsOk(v, fail)
    ensures FailsOk(w, fail)
  {
    forall k | 0 <= k < |fail| ensures Notifier(w, fail[k].job, fail[k].path) {
      assert Notifier(v, fail[k].job, fail[k].path);
    }
  }

  lemma TickWorkers(c: Config, s: State, d: nat)
    requires WorkersOk(c, s) && MayTick(c, s, d)
    ensures WorkersOk(c, Later(s, d))
  {
    var s' := Later(s, d);
    forall i | 0 <= i < |s.workers| ensures WorkerOk(c, s'.w, s.workers[i]) {
      assert WorkerOk(c, s.w, s.workers[i]);
      assert WithinBounds(c, s.workers[i], s.w.now + d);
    }
  }

  lemma TickBoot(s: State, d: nat)
    requires BootOk(s)
    ensures BootOk(Later(s, d))
  {
    assert forall j :: PendingRow(Later(s, d).w, j) <==> PendingRow(s.w, j);
  }

  lemma TickCleaner(c: Config, s: State, d: nat)
    requires CleanerOk(c, s.w, s.cln) && MayTick(c, s, d)
    ensures CleanerOk(c, Later(s, d).w, s.cln)
  {
  }

  /** The loops may still rely on what they relied on. */
  lemma TickLoops(c: Config, s: State, d: nat)
    requires ReconcilerOk(c, s.w, s.rec) && ReaperOk(s.w, s.rp) && CleanerOk(c, s.w, s.cln) && AllPending(s.w, s.queue)
    requires MayTick(c, s, d)
    ensures var w := Later(s, d).w;
      ReconcilerOk(c, w, s.rec) && ReaperOk(w, s.rp) && CleanerOk(c, w, s.cln) && AllPending(w, s.queue)
  {
    var w := Later(s, d).w;
    TickSenders(c, s.w, w, s.rec, s.rp);
    TickPending(s.w, w, s.queue);
    TickCleaner(c, s, d);
  }

  /** Every actor may still rely on what it relied on. */
  lemma TickActors(c: Config, s: State, d: nat)
    requires WorldOk(c, s.w) && WorkersOk(c, s) && AllPending(s.w, s.queue) && MayTick(c, s, d)
    requires ReconcilerOk(c, s.w, s.rec) && ReaperOk(s.w, s.rp) && CleanerOk(c, s.w, s.cln)
    ensures var t := Later(s, d);
      && WorldOk(c, t.w) && WorkersOk(c, t) && AllPending(t.w, t.queue)
      && ReconcilerOk(c, t.w, t.rec) && ReaperOk(t.w, t.rp) && CleanerOk(c, t.w, t.cln)
  {
    TickWorld(c, s, d);
    TickWorkers(c, s, d);
    TickLoops(c, s, d);
  }

  lemma TickKeeps(c: Config, s: State, d: nat)
    requires Inv(c, s) && MayTick(c, s, d)
    ensures Inv(c, Later(s, d))
  {
    TickActors(c, s, d);
    SameHolders(s, Later(s, d));
    TickBoot(s, d);
  }

  lemma {:induction false} FreshPool(c: Config, ws: seq<Worker>)
    requires ws == seq(c.workers, _ => Idle)
    ensures Busy(ws) == 0
  {
    BusyZero(ws);
  }

  /** A crash at any point leaves a state from which recovery can start. */
  lemma CrashKeeps(c: Config, s: State)
    requires Orderly(c) && Inv(c, s)
    ensures Inv(c, CrashState(c, s))
  {
    var s' := CrashState(c, s);
    FreshPool(c, s'.workers);
    forall j | j in s'.w.rows ensures RowOk(c, s'.w, j) {
      assert RowOk(c, s.w, j);
    }
  }

  lemma InitInv(c: Config)
    ensures Inv(c, Init(c))
  {
    FreshPool(c, Init(c).workers);
  }

  // ------------------------------------------------------------------ every event

  /** Any event of any actor keeps the invariant, and moves rows, files and Spring only forward. */
  lemma EventKeeps(c: Config, s: State, e: Event) returns (js: set<JobId>)
    requires Orderly(c) && Inv(c, s) && Enabled(c, s, e)
    ensures Inv(c, Apply(c, s, e))
    ensures e.Tick? || e.Crash? || Guarantee(c, s.w, Apply(c, s, e).w, js)
  {
    js := {};
    match e
    case Handler(a) => IngestKeeps(c, s, a);
    case Work(i, a) =>
      js := Touched(s, i, a);
      WorkerKeeps(c, s, i, a);
    case Reconcile(a) => js := ReconcilerKeeps(c, s, a);
    case Reap(a) => js := ReaperKeeps(c, s, a);
    case Clean(a) =>
      js := Deleted(c, s, a);
      CleanerKeeps(c, s, a);
    case Tick(d) => TickKeeps(c, s, d);
    case Crash => CrashKeeps(c, s);
  }
}
