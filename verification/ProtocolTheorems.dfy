/** What every run of the job lifecycle guarantees, across any number of crashes and restarts. */
module ProtocolTheorems {
  import opened JobProtocol
  import opened ProtocolInvariant
  import opened ProtocolSteps
  import opened ProtocolRecovery

  // ------------------------------------------------------------------ runs

  lemma {:induction false} RunKeeps(c: Config, s: State, es: seq<Event>)
    requires Orderly(c) && Inv(c, s) && Run(c, s, es)
    ensures Inv(c, After(c, s, es))
    decreases es
  {
    if es != [] {
      var _ := EventKeeps(c, s, es[0]);
      RunKeeps(c, Apply(c, s, es[0]), es[1..]);
    }
  }

  lemma ReachableInv(c: Config, s: State)
    requires Orderly(c) && Reachable(c, s)
    ensures Inv(c, s)
  {
    var es :| Run(c, Init(c), es) && After(c, Init(c), es) == s;
    InitInv(c);
    RunKeeps(c, Init(c), es);
  }

  lemma {:induction false} RunSnoc(c: Config, s: State, es: seq<Event>, e: Event)
    requires Run(c, s, es) && Enabled(c, After(c, s, es), e)
    ensures Run(c, s, es + [e]) && After(c, s, es + [e]) == Apply(c, After(c, s, es), e)
    decreases es
  {
    if es == [] {
      assert Run(c, Apply(c, s, e), []);
      assert ([e])[1..] == [];
    } else {
      assert (es + [e])[1..] == es[1..] + [e];
      RunSnoc(c, Apply(c, s, es[0]), es[1..], e);
    }
  }

  lemma ReachStep(c: Config, s: State, e: Event)
    requires Reachable(c, s) && Enabled(c, s, e)
    ensures Reachable(c, Apply(c, s, e))
  {
    var es :| Run(c, Init(c), es) && After(c, Init(c), es) == s;
    RunSnoc(c, Init(c), es, e);
  }

  // ------------------------------------------------------------------ one holder

  /** Each job is with at most one of ingest, queue, workers and reaper, and queued jobs are PENDING. */
  lemma SingleOwner(c: Config, s: State)
    requires Orderly(c) && Reachable(c, s)
    ensures OneHolder(s)
    ensures forall j :: j in s.queue ==> j in s.w.rows && s.w.rows[j].status.Pending?
    ensures forall i :: 0 <= i < |s.workers| && s.workers[i].Rca? ==>
              s.workers[i].job in s.w.rows && s.w.rows[s.workers[i].job].status.Running?
  {
    ReachableInv(c, s);
    forall j | j in s.queue ensures PendingRow(s.w, j) {
      var k :| 0 <= k < |s.queue| && s.queue[k] == j;
      assert PendingRow(s.w, s.queue[k]);
    }
    forall i | 0 <= i < |s.workers| && s.workers[i].Rca?
      ensures HasRow(s.w, s.workers[i].job, Running, s.workers[i].path)
    {
      assert WorkerOk(c, s.w, s.workers[i]);
    }
  }

  // ------------------------------------------------------------------ no file is lost while needed

  /** Every unfinished job can still read its signals. */
  ghost predicate FileSafe(s: State) {
    forall j :: j in s.w.rows && Active(s.w.rows[j]) ==> s.w.rows[j].path in s.w.files
  }

  lemma FilesSurvive(c: Config, s: State)
    requires Sound(c) && Reachable(c, s)
    ensures FileSafe(s)
    ensures forall i :: 0 <= i < |s.workers| ==> !s.workers[i].Missing?
  {
    ReachableInv(c, s);
    forall j | j in s.w.rows && Active(s.w.rows[j]) ensures s.w.rows[j].path in s.w.files {
      assert RowOk(c, s.w, j);
    }
    forall i | 0 <= i < |s.workers| ensures !s.workers[i].Missing? {
      assert WorkerOk(c, s.w, s.workers[i]);
    }
  }
}
