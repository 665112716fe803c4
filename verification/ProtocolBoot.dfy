/** Startup recovery: complete in every run in which workers wait for it, whatever the timing and the files. */
module ProtocolBoot {
  import opened JobProtocol
  import opened ProtocolInvariant
  import opened ProtocolRecovery

  /** The jobs recovery has queued or is about to queue. */
  function Planned(s: State): seq<JobId> {
    s.queue + match s.rp
              case Listed(ids) => ids
              case Requeueing(enq, _) => enq
              case _ => []
  }

  ghost predicate NoneRunning(w: World) {
    forall j :: j in w.rows ==> !w.rows[j].status.Running?
  }

  /** The planned jobs are exactly the PENDING ones, once each. */
  ghost predicate PlanExact(w: World, plan: seq<JobId>) {
    NoDup(plan) && forall j :: j in plan <==> PendingRow(w, j)
  }

  /** The claims are exactly the RUNNING rows, once each. */
  ghost predicate ClaimsExact(w: World, claims: seq<Claim>) {
    && DistinctJobs(claims)
    && (forall k :: 0 <= k < |claims| ==> claims[k].job in w.rows && w.rows[claims[k].job].status.Running?)
    && (forall j :: j in w.rows && w.rows[j].status.Running? ==> j in Jobs(claims))
  }

  /** Recovery alone is at work, and loses nothing. */
  ghost predicate Booting(s: State) {
    && (forall i :: 0 <= i < |s.workers| ==> s.workers[i].Idle?)
    && s.w.ingests == map[] && s.rec.Resting? && s.cln.Quiet? && !s.rp.Waiting?
    && (if s.rp.AtBoot? then s.queue == [] else PlanExact(s.w, Planned(s)))
    && (s.rp.Selected? ==> ClaimsExact(s.w, s.rp.claims))
    && (s.rp.Requeueing? || s.rp.Reporting? || s.rp.Discard? ==> NoneRunning(s.w))
  }

  ghost predicate BootInv(s: State) {
    s.up || Booting(s)
  }

  /** The commit of recovery turns the claims into planned jobs or failures. */
  lemma BootCommit(c: Config, s: State)
    requires Booting(s) && s.rp.Selected?
    ensures Booting(Commits(c, s))
  {
    var t := Commits(c, s);
    var claims := s.rp.claims;
    RecoverRowsAt(s.w.rows, claims, c.maxRequeue, s.w.now);
    SplitClaims(claims, c.maxRequeue);
    forall j | j in t.w.rows
      ensures !t.w.rows[j].status.Running?
      ensures PendingRow(t.w, j) <==> j in s.queue || j in t.rp.enq
    {
      if j in Jobs(claims) {
        var k :| 0 <= k < |Jobs(claims)| && Jobs(claims)[k] == j;
        assert claims[k].job == j && s.w.rows[j].status.Running?;
        assert j in s.queue ==> PendingRow(s.w, j);
        PlannedIffAllowed(claims, c.maxRequeue, k);
      } else {
        assert t.w.rows[j] == s.w.rows[j];
        ClaimedOnly(claims, c.maxRequeue, j);
        assert j in s.queue <==> PendingRow(s.w, j);
      }
    }
    CommitPlan(c, s, t);
  }

  lemma {:induction false} PlannedIffAllowed(claims: seq<Claim>, max: nat, k: nat)
    requires DistinctJobs(claims) && k < |claims|
    ensures claims[k].job in ToEnqueue(claims, max) <==> claims[k].requeues < max
  {
    SplitClaims(claims, max);
  }

  lemma {:induction false} ClaimedOnly(claims: seq<Claim>, max: nat, j: JobId)
    requires DistinctJobs(claims)
    ensures j in ToEnqueue(claims, max) ==> j in Jobs(claims)
  {
    SplitClaims(claims, max);
    if j in ToEnqueue(claims, max) {
      var k :| 0 <= k < |claims| && claims[k].job == j && claims[k].requeues < max;
      assert Jobs(claims)[k] == j;
    }
  }

  lemma CommitPlan(c: Config, s: State, t: State)
    requires Booting(s) && s.rp.Selected? && t == Commits(c, s) && t.w.rows.Keys == s.w.rows.Keys
    requires forall j :: j in t.w.rows ==> (PendingRow(t.w, j) <==> j in s.queue || j in t.rp.enq)
    ensures PlanExact(t.w, Planned(t))
  {
    var claims := s.rp.claims;
    SplitClaims(claims, c.maxRequeue);
    assert Planned(s) == s.queue;
    forall j | j in t.rp.enq ensures j !in s.queue && j in t.w.rows {
      var k :| 0 <= k < |claims| && claims[k].job == j && claims[k].requeues < c.maxRequeue;
      assert j in s.queue ==> PendingRow(s.w, j);
    }
    forall j | j in s.queue ensures j in t.w.rows {
      assert PendingRow(s.w, j);
    }
    ConcatNoDup(s.queue, t.rp.enq);
  }

  lemma ConcatNoDup(a: seq<JobId>, b: seq<JobId>)
    requires NoDup(a) && NoDup(b) && forall j :: j in b ==> j !in a
    ensures NoDup(a + b)
  {
    forall x, y | 0 <= x < y < |a + b| ensures (a + b)[x] != (a + b)[y] {
      if x < |a| <= y {
        assert b[y - |a|] in b && a[x] in a;
      }
    }
  }

  /** Handing over the head of the list does not change the plan. */
  lemma BootHandOver(c: Config, s: State, a: ReaperAct)
    requires Booting(s) && ReaperEnabled(c, s, a) && (a.QueuePending? || a.Requeue?)
    ensures Booting(ApplyReaper(c, s, a))
  {
    var t := ApplyReaper(c, s, a);
    var list := if a.QueuePending? then s.rp.ids else s.rp.enq;
    assert list == [list[0]] + list[1..];
    assert Planned(t) == s.queue + [list[0]] + list[1..] == Planned(s);
  }

  lemma BootList(c: Config, s: State, ids: seq<JobId>)
    requires Booting(s) && ReaperEnabled(c, s, ListPending(ids))
    ensures Booting(ApplyReaper(c, s, ListPending(ids)))
  {
    assert [] + ids == ids;
  }

  lemma BootSelect(c: Config, s: State, claims: seq<Claim>)
    requires Booting(s) && !s.up && ReaperEnabled(c, s, SelectRunning(claims))
    ensures Booting(ApplyReaper(c, s, SelectRunning(claims)))
  {
    assert Planned(s) == s.queue + [] == s.queue;
    forall k | 0 <= k < |claims| ensures claims[k].job in s.w.rows && s.w.rows[claims[k].job].status.Running? {
      assert ClaimOf(c, s, claims[k]);
    }
    forall j | j in s.w.rows && s.w.rows[j].status.Running? ensures j in Jobs(claims) {
      assert Stuck(c, s, s.w.rows[j]);
      var k :| 0 <= k < |claims| && claims[k].job == j;
      assert Jobs(claims)[k] == j;
    }
  }

  lemma BootFailures(c: Config, s: State, a: ReaperAct)
    requires Booting(s) && ReaperEnabled(c, s, a) && (a.NotifyFailed? || a.DropFailed?)
    ensures Booting(ApplyReaper(c, s, a))
  {
    var t := ApplyReaper(c, s, a);
    assert Planned(t) == Planned(s);
    assert forall j :: PendingRow(t.w, j) <==> PendingRow(s.w, j);
  }

  lemma BootReaper(c: Config, s: State, a: ReaperAct)
    requires BootInv(s) && ReaperEnabled(c, s, a)
    ensures BootInv(ApplyReaper(c, s, a))
  {
    if !s.up {
      match a
      case ListPending(ids) => BootList(c, s, ids);
      case SelectRunning(claims) => BootSelect(c, s, claims);
      case CommitRecovery => BootCommit(c, s);
      case QueuePending => BootHandOver(c, s, a);
      case Requeue => BootHandOver(c, s, a);
      case NotifyFailed(_, _) => BootFailures(c, s, a);
      case DropFailed(_) => BootFailures(c, s, a);
      case _ =>
    }
  }

  lemma BootEvent(c: Config, s: State, e: Event)
    requires c.gated && BootInv(s) && Enabled(c, s, e)
    ensures BootInv(Apply(c, s, e))
  {
    match e
    case Reap(a) => BootReaper(c, s, a);
    case Tick(d) => assert forall j :: PendingRow(Later(s, d).w, j) <==> PendingRow(s.w, j);
    case _ =>
  }

  lemma {:induction false} BootRun(c: Config, s: State, es: seq<Event>)
    requires c.gated && BootInv(s) && Run(c, s, es)
    ensures BootInv(After(c, s, es))
    decreases es
  {
    if es != [] {
      BootEvent(c, s, es[0]);
      BootRun(c, Apply(c, s, es[0]), es[1..]);
    }
  }

  // ------------------------------------------------------------------ the result

  /** `j` waits in exactly one slot of the queue. */
  ghost predicate OneSlot(queue: seq<JobId>, j: JobId) {
    exists k :: 0 <= k < |queue| && queue[k] == j && forall m :: 0 <= m < |queue| && queue[m] == j ==> m == k
  }

  /** Nothing is RUNNING and every PENDING job waits in one slot. */
  ghost predicate Recovered(s: State) {
    NoneRunning(s.w) && forall j :: PendingRow(s.w, j) ==> OneSlot(s.queue, j)
  }

  lemma SlotIsUnique(queue: seq<JobId>, j: JobId)
    requires NoDup(queue) && j in queue
    ensures OneSlot(queue, j)
  {
    var k :| 0 <= k < |queue| && queue[k] == j;
  }

  /**
   When startup recovery has finished, nothing is RUNNING and every PENDING job waits in one slot.
   It is enough that workers wait for recovery.
   */
  lemma RecoveryIsComplete(c: Config, s: State)
    requires c.gated && Reachable(c, s) && !s.up && Enabled(c, s, Reap(Rest))
    ensures var t := Apply(c, s, Reap(Rest)); t.up && t.w == s.w && t.queue == s.queue
    ensures Recovered(s)
  {
    var es :| Run(c, Init(c), es) && After(c, Init(c), es) == s;
    BootRun(c, Init(c), es);
    assert Planned(s) == s.queue + [] == s.queue;
    forall j | PendingRow(s.w, j) ensures OneSlot(s.queue, j) {
      SlotIsUnique(s.queue, j);
    }
  }
}
