/** When rows leave the table, and how long the reconciler waits before it sends a report again. */
module RowHistory {
  import opened JobProtocol
  import opened ProtocolInvariant
  import opened ProtocolRecovery
  import opened ProtocolTheorems
  import opened ProtocolBounds

  // ------------------------------------------------------------------ rows leave by purging only

  /** The row is DONE or FAILED and was last written more than the retention ago. */
  predicate PastRetention(c: Config, w: World, j: JobId) {
    j in w.rows && (w.rows[j].status.Done? || w.rows[j].status.Failed?) && w.rows[j].updated + c.retention < w.now
  }

  lemma WorkerRemovesNone(c: Config, s: State, i: nat, a: WorkerAct)
    requires WorkerEnabled(c, s, i, a)
    ensures ApplyWorker(c, s, i, a).w.rows.Keys == s.w.rows.Keys
  {
  }

  lemma ReaperRemovesNone(c: Config, s: State, a: ReaperAct)
    requires ReaperEnabled(c, s, a)
    ensures ApplyReaper(c, s, a).w.rows.Keys == s.w.rows.Keys
  {
    if a.CommitRecovery? {
      RecoverResulting(s.w.rows, s.rp.claims, c.maxRequeue, s.w.now);
    }
  }

  /** In every deployment and every state, the rows an event removes are those past retention, and the event is a purge. */
  lemma LeavesExactly(c: Config, s: State, e: Event, j: JobId)
    requires Enabled(c, s, e) && j in s.w.rows
    ensures j !in Apply(c, s, e).w.rows <==> e == Clean(Purge) && PastRetention(c, s.w, j)
  {
    match e
    case Work(i, a) => WorkerRemovesNone(c, s, i, a);
    case Reap(a) => ReaperRemovesNone(c, s, a);
    case _ =>
  }

  /** Somewhere along the run a purge met the row past its retention. */
  ghost predicate PurgedAlong(c: Config, s: State, es: seq<Event>, j: JobId)
    requires Run(c, s, es)
    decreases es
  {
    es != [] && ((es[0] == Clean(Purge) && PastRetention(c, s.w, j)) || PurgedAlong(c, Apply(c, s, es[0]), es[1..], j))
  }

  /** Over any run of any deployment: a row that is gone was finished, and kept for its retention. */
  lemma {:induction false} RowsAreRetained(c: Config, s: State, es: seq<Event>, j: JobId)
    requires Run(c, s, es) && j in s.w.rows && j !in After(c, s, es).w.rows
    ensures PurgedAlong(c, s, es, j)
    decreases es
  {
    LeavesExactly(c, s, es[0], j);
    if j in Apply(c, s, es[0]).w.rows {
      RowsAreRetained(c, Apply(c, s, es[0]), es[1..], j);
    }
  }

  // ------------------------------------------------------------------ every change is dated

  /** Rows that are new or different in `w` carry its time. */
  ghost predicate Dated(v: World, w: World, j: JobId) {
    j in w.rows && (j !in v.rows || w.rows[j] != v.rows[j]) ==> w.rows[j].updated == w.now
  }

  lemma {:induction false} RecoveryIsDated(rows: map<JobId, Row>, claims: seq<Claim>, max: nat, now: int, j: JobId)
    ensures var t := RecoverRows(rows, claims, max, now); j in t ==> j in rows && (t[j] == rows[j] || t[j].updated == now)
  {
    if claims != [] {
      RecoveryIsDated(rows, claims[1..], max, now, j);
    }
  }

  lemma WorkerDates(c: Config, s: State, i: nat, a: WorkerAct, j: JobId)
    requires WorkerEnabled(c, s, i, a)
    ensures Dated(s.w, ApplyWorker(c, s, i, a).w, j)
  {
  }

  lemma ReaperDates(c: Config, s: State, a: ReaperAct, j: JobId)
    requires ReaperEnabled(c, s, a)
    ensures Dated(s.w, ApplyReaper(c, s, a).w, j)
  {
    if a.CommitRecovery? {
      RecoveryIsDated(s.w.rows, s.rp.claims, c.maxRequeue, s.w.now, j);
    }
  }

  /** In every deployment and every state, an event that creates or changes a row dates it: retention, grace and threshold count from there. */
  lemma ChangesAreDated(c: Config, s: State, e: Event, j: JobId)
    requires Enabled(c, s, e)
    ensures var t := Apply(c, s, e);
      j in t.w.rows && (j !in s.w.rows || t.w.rows[j] != s.w.rows[j]) ==> t.w.rows[j].updated == s.w.now
  {
    match e
    case Work(i, a) => WorkerDates(c, s, i, a, j);
    case Reap(a) => ReaperDates(c, s, a, j);
    case _ =>
  }

  // ------------------------------------------------------------------ resending waits for the grace

  /** If the row still waits for delivery, it has done so for longer than the grace. */
  predicate Waited(c: Config, w: World, pc: Parcel) {
    pc.job in w.rows && w.rows[pc.job].status.Delivering? ==> w.rows[pc.job].updated + c.grace < w.now
  }

  /** The parcels the reconciler still has in hand. */
  function InHand(rec: Reconciler): seq<Parcel> {
    match rec
    case Resting => []
    case Walking(todo) => todo
    case Loaded(pc, _, todo) => [pc] + todo
    case Marking(pc, _, todo) => [pc] + todo
    case Dropping(_, todo) => todo
  }

  ghost predicate AllWaited(c: Config, w: World, ps: seq<Parcel>) {
    forall k :: 0 <= k < |ps| ==> Waited(c, w, ps[k])
  }

  /** Another actor's step does not restart the wait: a row never re-enters DELIVERING. */
  lemma StillWaited(c: Config, v: World, w: World, js: set<JobId>, pc: Parcel)
    requires Guarantee(c, v, w, js) && ParcelOk(v, pc) && Waited(c, v, pc)
    ensures Waited(c, w, pc)
  {
    if pc.job in w.rows && pc.job in v.rows {
      assert RowStep(c, v.rows[pc.job], w.rows[pc.job]);
    }
  }

  lemma InHandOk(c: Config, s: State, k: nat)
    requires Inv(c, s) && k < |InHand(s.rec)|
    ensures ParcelOk(s.w, InHand(s.rec)[k])
  {
    assert ReconcilerOk(c, s.w, s.rec);
  }

  lemma WorkerLeavesParcels(c: Config, s: State, i: nat, a: WorkerAct)
    requires WorkerEnabled(c, s, i, a)
    ensures ApplyWorker(c, s, i, a).rec == s.rec
  {
  }

  lemma ReconcilerParcels(c: Config, s: State, a: ReconcilerAct, k: nat)
    requires ReconcilerEnabled(c, s, a) && k < |InHand(ApplyReconciler(c, s, a).rec)|
    ensures var pc := InHand(ApplyReconciler(c, s, a).rec)[k];
      pc in InHand(s.rec) || (Waited(c, s.w, pc) && ApplyReconciler(c, s, a).w == s.w)
  {
  }

  /** What is in hand after an event was in hand before, or has just been selected. */
  lemma InHandBefore(c: Config, s: State, e: Event, k: nat)
    requires Enabled(c, s, e) && k < |InHand(Apply(c, s, e).rec)|
    ensures var pc := InHand(Apply(c, s, e).rec)[k];
      pc in InHand(s.rec) || (Waited(c, s.w, pc) && Apply(c, s, e).w == s.w)
  {
    match e
    case Work(i, a) => WorkerLeavesParcels(c, s, i, a);
    case Reconcile(a) => ReconcilerParcels(c, s, a, k);
    case _ =>
  }

  lemma WaitKept(c: Config, s: State, e: Event)
    requires Orderly(c) && Inv(c, s) && Enabled(c, s, e) && AllWaited(c, s.w, InHand(s.rec))
    ensures var t := Apply(c, s, e); AllWaited(c, t.w, InHand(t.rec))
  {
    var t := Apply(c, s, e);
    var js := EventKeeps(c, s, e);
    forall k | 0 <= k < |InHand(t.rec)| ensures Waited(c, t.w, InHand(t.rec)[k]) {
      var pc := InHand(t.rec)[k];
      InHandBefore(c, s, e, k);
      if pc in InHand(s.rec) {
        var m :| 0 <= m < |InHand(s.rec)| && InHand(s.rec)[m] == pc;
        InHandOk(c, s, m);
        if !e.Tick? && !e.Crash? {
          StillWaited(c, s.w, t.w, js, pc);
        }
      }
    }
  }

  lemma {:induction false} RunWaits(c: Config, s: State, es: seq<Event>)
    requires Orderly(c) && Inv(c, s) && Run(c, s, es) && AllWaited(c, s.w, InHand(s.rec))
    ensures var t := After(c, s, es); AllWaited(c, t.w, InHand(t.rec))
    decreases es
  {
    if es != [] {
      WaitKept(c, s, es[0]);
      var _ := EventKeeps(c, s, es[0]);
      RunWaits(c, Apply(c, s, es[0]), es[1..]);
    }
  }

  /** Whenever the reconciler sends a report, its row, if it still waits, has waited for longer than the grace. */
  lemma ResendsWait(c: Config, s: State, resp: Response, landed: bool)
    requires Orderly(c) && Reachable(c, s) && ReconcilerEnabled(c, s, Redeliver(resp, landed))
    ensures var j := s.rec.parcel.job;
      j in s.w.rows && s.w.rows[j].status.Delivering? ==> s.w.rows[j].updated + c.grace < s.w.now
  {
    var es :| Run(c, Init(c), es) && After(c, Init(c), es) == s;
    InitInv(c);
    RunWaits(c, Init(c), es);
    assert InHand(s.rec)[0] == s.rec.parcel;
  }
}
