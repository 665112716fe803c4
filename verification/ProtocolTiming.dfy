/** The periodic reaper and live workers: safe in every run exactly by the arithmetic of the settings. */
module ProtocolTiming {
  import opened JobProtocol
  import opened ProtocolInvariant

  /** What a worker in the analysis owes to the clock, whoever else has touched its row since. */
  predicate Punctual(c: Config, w: World, wk: Worker) {
    wk.Rca? ==>
      && wk.job < w.nextJob && wk.since <= w.now && WithinBounds(c, wk, w.now) && wk.other <= c.overhead
      && wk.tries <= (if wk.phase.Over? then 2 else 1)
      && (wk.job in w.rows ==> wk.since - w.rows[wk.job].updated <= wk.other + Attempts(c, wk.tries))
  }

  ghost predicate OnTime(c: Config, s: State) {
    && (forall j :: j in s.w.rows ==> j < s.w.nextJob && s.w.rows[j].updated <= s.w.now)
    && (forall i :: 0 <= i < |s.workers| ==> Punctual(c, s.w, s.workers[i]))
  }

  /** Rows only get younger, and numbers are not reused. */
  ghost predicate Younger(v: World, w: World) {
    && v.now == w.now && v.nextJob <= w.nextJob
    && (forall j :: j in w.rows && j in v.rows ==> w.rows[j] == v.rows[j] || w.rows[j].updated == w.now)
    && (forall j :: j in w.rows && j !in v.rows ==> v.nextJob <= j < w.nextJob && w.rows[j].updated == w.now)
  }

  lemma YoungerKeeps(c: Config, s: State, t: State)
    requires OnTime(c, s) && Younger(s.w, t.w)
    requires forall i :: 0 <= i < |t.workers| ==> (i < |s.workers| && t.workers[i] == s.workers[i]) || Punctual(c, t.w, t.workers[i])
    ensures OnTime(c, t)
  {
    forall i | 0 <= i < |t.workers| ensures Punctual(c, t.w, t.workers[i]) {
      if i < |s.workers| && t.workers[i] == s.workers[i] {
        assert Punctual(c, s.w, s.workers[i]);
      }
    }
  }

  lemma {:induction false} RecoverYounger(rows: map<JobId, Row>, claims: seq<Claim>, max: nat, now: int)
    ensures var t := RecoverRows(rows, claims, max, now);
      t.Keys == rows.Keys && forall j :: j in t ==> t[j] == rows[j] || t[j].updated == now
  {
    if claims != [] {
      RecoverYounger(rows, claims[1..], max, now);
    }
  }

  lemma WorkerPunctual(c: Config, s: State, i: nat, a: WorkerAct)
    requires OnTime(c, s) && WorkerEnabled(c, s, i, a)
    ensures Punctual(c, ApplyWorker(c, s, i, a).w, ApplyWorker(c, s, i, a).workers[i])
  {
    assert Punctual(c, s.w, s.workers[i]);
  }

  lemma WorkerOnTime(c: Config, s: State, i: nat, a: WorkerAct)
    requires OnTime(c, s) && WorkerEnabled(c, s, i, a)
    ensures OnTime(c, ApplyWorker(c, s, i, a))
  {
    var t := ApplyWorker(c, s, i, a);
    WorkerPunctual(c, s, i, a);
    WorkerYounger(c, s, i, a);
    YoungerKeeps(c, s, t);
  }

  lemma WorkerYounger(c: Config, s: State, i: nat, a: WorkerAct)
    requires WorkerEnabled(c, s, i, a)
    ensures var t := ApplyWorker(c, s, i, a);
      Younger(s.w, t.w) && |t.workers| == |s.workers| && forall k :: 0 <= k < |t.workers| && k != i ==> t.workers[k] == s.workers[k]
  {
  }

  lemma TickOnTime(c: Config, s: State, d: nat)
    requires OnTime(c, s) && MayTick(c, s, d)
    ensures OnTime(c, Later(s, d))
  {
    forall i | 0 <= i < |s.workers| ensures Punctual(c, Later(s, d).w, s.workers[i]) {
      assert Punctual(c, s.w, s.workers[i]) && WithinBounds(c, s.workers[i], s.w.now + d);
    }
  }

  lemma OtherOnTime(c: Config, s: State, e: Event)
    requires OnTime(c, s) && Enabled(c, s, e) && (e.Handler? || e.Reconcile? || e.Clean? || e.Reap?)
    ensures OnTime(c, Apply(c, s, e))
  {
    var t := Apply(c, s, e);
    if e.Reap? && e.pa.CommitRecovery? {
      RecoverYounger(s.w.rows, s.rp.claims, c.maxRequeue, s.w.now);
    }
    assert Younger(s.w, t.w);
    YoungerKeeps(c, s, t);
  }

  lemma {:induction false} RunOnTime(c: Config, s: State, es: seq<Event>)
    requires OnTime(c, s) && Run(c, s, es)
    ensures OnTime(c, After(c, s, es))
    decreases es
  {
    if es != [] {
      match es[0] {
        case Work(i, a) => WorkerOnTime(c, s, i, a);
        case Tick(d) => TickOnTime(c, s, d);
        case Crash =>
        case _ => OtherOnTime(c, s, es[0]);
      }
      RunOnTime(c, Apply(c, s, es[0]), es[1..]);
    }
  }

  /** The reaper's selection leaves the job of worker `i` alone. */
  ghost predicate Spared(s: State, claims: seq<Claim>, i: nat) {
    i < |s.workers| && s.workers[i].Rca? ==> forall k :: 0 <= k < |claims| ==> claims[k].job != s.workers[i].job
  }

  /**
   The periodic reaper never selects a job whose worker is still inside the analysis, even if workers
   did not wait for recovery: two attempts plus overhead fit below its threshold.
   */
  lemma ReaperSparesLiveWorkers(c: Config, s: State, claims: seq<Claim>, i: nat)
    requires 2 * c.attemptCap + c.overhead <= c.stuckAfter
    requires Reachable(c, s) && s.up && Enabled(c, s, Reap(SelectRunning(claims)))
    ensures Spared(s, claims, i)
  {
    var es :| Run(c, Init(c), es) && After(c, Init(c), es) == s;
    RunOnTime(c, Init(c), es);
    if i < |s.workers| && s.workers[i].Rca? {
      assert Punctual(c, s.w, s.workers[i]);
      forall k | 0 <= k < |claims| ensures claims[k].job != s.workers[i].job {
        assert ClaimOf(c, s, claims[k]);
      }
    }
  }
}
