/**
 Exactly when the promises about runs hold.

 Ownership, reports, finality and bounds need order (`Orderly`) and nothing else; recovery needs the
 gate alone, the reaper's restraint the arithmetic alone, and files need order and durability.
 */
module ProtocolExactly {
  import opened Wrappers
  import opened JobProtocol
  import opened ProtocolInvariant
  import opened ProtocolTheorems
  import opened ProtocolBounds
  import opened ProtocolBoot
  import opened ProtocolTiming
  import opened ProtocolWitness

  /** Single ownership holds in every run if and only if workers wait for recovery and the reaper for workers. */
  lemma OwnershipExactly(c: Config)
    requires c.workers > 0
    ensures (forall s :: Reachable(c, s) ==> OneHolder(s)) <==> Orderly(c)
  {
    if Orderly(c) {
      forall s | Reachable(c, s) ensures OneHolder(s) {
        SingleOwner(c, s);
      }
    } else {
      var s := Clashes(c, Some(7));
      TwoHolders(c, s, Some(7));
      ReachedIsReachable(c, s, 2 * c.maxRequeue + 1);
    }
  }

  /** Recovery completes in every run if and only if workers wait for it. */
  lemma RecoveryExactly(c: Config)
    requires c.workers > 0
    ensures (forall s :: Reachable(c, s) && !s.up && Enabled(c, s, Reap(Rest)) ==> Recovered(s)) <==> c.gated
  {
    if c.gated {
      forall s | Reachable(c, s) && !s.up && Enabled(c, s, Reap(Rest)) ensures Recovered(s) {
        RecoveryIsComplete(c, s);
      }
    } else {
      var s := RunsDuringRecovery(c);
      assert !NoneRunning(s.w);
    }
  }

  /** The periodic reaper spares live workers in every run if and only if two attempts plus overhead fit its threshold. */
  lemma SparingExactly(c: Config)
    requires c.workers > 0
    ensures (forall s, claims, i :: Reachable(c, s) && s.up && Enabled(c, s, Reap(SelectRunning(claims))) ==> Spared(s, claims, i))
            <==> 2 * c.attemptCap + c.overhead <= c.stuckAfter
  {
    if 2 * c.attemptCap + c.overhead <= c.stuckAfter {
      forall s, claims, i | Reachable(c, s) && s.up && Enabled(c, s, Reap(SelectRunning(claims))) ensures Spared(s, claims, i) {
        ReaperSparesLiveWorkers(c, s, claims, i);
      }
    } else {
      var s := LongRun(c);
      var claims := [Claim(0, c.maxRequeue, 0)];
      ReachedIsReachable(c, s, 2 * c.maxRequeue + 1);
      assert claims[0].job == s.workers[0].job;
      assert !Spared(s, claims, 0);
    }
  }

  /** Rows and Spring agree in every run if and only if there is order. */
  lemma ReportsExactly(c: Config)
    requires c.workers > 0
    ensures (forall s, j :: Reachable(c, s) ==> Consistent(s.w, j)) <==> Orderly(c)
  {
    if Orderly(c) {
      forall s, j | Reachable(c, s) ensures Consistent(s.w, j) {
        ReportsMatchRows(c, s, j);
      }
    } else {
      var s := Clashes(c, Some(7));
      var t := Contradicts(c, s, 2 * c.maxRequeue + 1);
      ReachedIsReachable(c, t, 2 * c.maxRequeue + 1);
      assert !Consistent(t.w, 0);
    }
  }

  /** DONE means reported exactly once in every run if and only if there is order. */
  lemma {:induction false} ReportedOnceExactly(c: Config)
    requires c.workers > 0
    ensures (forall es, j :: Run(c, Init(c), es) ==> ReportedOnce(c, es, j)) <==> Orderly(c)
  {
    if Orderly(c) {
      forall es, j | Run(c, Init(c), es) ensures ReportedOnce(c, es, j) {
        DoneMeansReportedOnce(c, es, j);
      }
    } else {
      var s := Clashes(c, None);
      var t := DoneAndFailed(c, s, 2 * c.maxRequeue + 1);
      ReachedIsReachable(c, t, 2 * c.maxRequeue + 1);
      var es :| Run(c, Init(c), es) && After(c, Init(c), es) == t;
      StoredOnce(c, Init(c), es, 0);
      assert !ReportedOnce(c, es, 0);
    }
  }

  /** Finished rows stay as they are in every run if and only if there is order. */
  lemma {:induction false} FinalityExactly(c: Config)
    requires c.workers > 0
    ensures (forall s, es, j :: Reachable(c, s) && Run(c, s, es) ==> StaysFinal(c, s, es, j)) <==> Orderly(c)
  {
    if Orderly(c) {
      forall s, es, j | Reachable(c, s) && Run(c, s, es) ensures StaysFinal(c, s, es, j) {
        FinalIsFinal(c, s, es, j);
      }
    } else {
      var s := Clashes(c, Some(7));
      var t := Delivered(c, s, 2 * c.maxRequeue + 1);
      ReachedIsReachable(c, t, 2 * c.maxRequeue + 3);
      Overwrites(c, t, 2 * c.maxRequeue + 3);
      OverwrittenIsNotFinal(c, t);
    }
  }

  lemma {:induction false} OverwrittenIsNotFinal(c: Config, t: State)
    requires Reachable(c, t) && HasRow(t.w, 0, Done, 0) && Enabled(c, t, Reap(CommitRecovery))
    requires HasRow(Apply(c, t, Reap(CommitRecovery)).w, 0, Failed, 0)
    ensures exists es :: Run(c, t, es) && !StaysFinal(c, t, es, 0)
  {
    var es := [Reap(CommitRecovery)];
    var u := Apply(c, t, es[0]);
    assert es[1..] == [] && Run(c, u, []) && After(c, u, []) == u;
    assert Run(c, t, es) && After(c, t, es) == u;
    NumbersGivenOut(c, t);
    assert Finished(t.w, 0) && !Untouched(t.w, u.w, 0);
    assert !StaysFinal(c, t, es, 0);
  }

  lemma NumbersGivenOut(c: Config, s: State)
    requires Reachable(c, s)
    ensures forall j :: j in s.w.rows ==> j < s.w.nextJob
  {
    var es :| Run(c, Init(c), es) && After(c, Init(c), es) == s;
    RunOnTime(c, Init(c), es);
  }

  /** A job's work is bounded in every run if and only if there is order. */
  lemma {:induction false} WorkBoundExactly(c: Config)
    requires c.workers > 0
    ensures (forall es, j :: Run(c, Init(c), es) ==> WorkBound(c, es, j)) <==> Orderly(c)
  {
    if Orderly(c) {
      forall es, j | Run(c, Init(c), es) ensures WorkBound(c, es, j) {
        WorkIsBounded(c, es, j);
      }
    } else {
      var n := 2 * c.maxRequeue + 1;
      var s := Clashes(c, Some(7));
      var t := Delivered(c, s, n);
      Overwrites(c, t, n + 2);
      var u := Apply(c, t, Reap(CommitRecovery));
      var es :| Run(c, Init(c), es) && After(c, Init(c), es) == u && StatusChanges(c, Init(c), es, 0) >= n + 3;
      assert !WorkBound(c, es, 0);
    }
  }

  /**
   No run loses a file an unfinished job needs if and only if the deployment provides all four of:
   workers wait for recovery, no error after a commit reaches ingest, the reaper's threshold covers two
   attempts plus overhead, and the orphan age covers the ingest gap plus the sweep gap.
   */
  lemma FileSafetyExactly(c: Config)
    requires c.workers > 0
    ensures (forall s :: Reachable(c, s) ==> FileSafe(s)) <==> Sound(c)
  {
    if Sound(c) {
      forall s | Reachable(c, s) ensures FileSafe(s) {
        FilesSurvive(c, s);
      }
    } else if !c.gated {
      StartupRaceLosesFile(c);
    } else if !c.atomicIngest {
      RefreshFailureLosesFile(c);
    } else if 2 * c.attemptCap + c.overhead > c.stuckAfter {
      LongRunLosesFile(c);
    } else {
      LateCommitLosesFile(c);
    }
  }

  /** The shipped settings leave 300 s of overhead and a day between file and sweep. */
  lemma DefaultSettings(c: Config)
    requires c.attemptCap == 600 && c.stuckAfter == 1500 && c.orphanAge == 24 * 3600
    requires c.gated && c.atomicIngest
    ensures Sound(c) <==> c.overhead <= 300 && c.ingestGap + c.sweepGap <= 86400
  {
  }
}
