/** The step system contains the other services as well: ingest, a sweep, a recovery and a redelivery round are runs of it. */
module RoundRefinement {
  import opened JobProtocol
  import opened ProtocolTheorems
  import opened BundleFiles
  import opened DeliveryReconciler
  import opened IngestApi
  import opened ProcessRefinement

  // ------------------------------------------------------------------ ingest

  /** Rows, files and queue after `IngestBundle`, for every way its request can end. */
  lemma IngestIsARun(c: Config, s: State, how: Persist, fails: bool) returns (t: State)
    requires s.up && (how.RefreshRaises? ==> !c.atomicIngest)
    ensures Leads(c, s, t) && t.w.spring == s.w.spring
    ensures t.w.rows == if how.CommitRaises? then s.w.rows else WithJob(s.w.rows, s.w.nextJob, s.w.nextFile, s.w.now)
    ensures t.w.files == Discarded(s.w.files[s.w.nextFile := s.w.now], s.w.nextFile, !how.Saved? && !fails)
    ensures t.queue == if how.Saved? then s.queue + [s.w.nextJob] else s.queue
  {
    var p := s.w.nextFile;
    LeadsNowhere(c, s);
    LeadsOn(c, s, s, Handler(Write));
    t := Apply(c, s, Handler(Write));
    var persist := match how case Saved => Commit(p) case CommitRaises => CommitFails(p) case RefreshRaises => RefreshFails(p);
    LeadsOn(c, s, t, Handler(persist));
    t := Apply(c, t, Handler(persist));
    var last := if how.Saved? then Enqueue(p) else Rollback(p, !fails);
    LeadsOn(c, s, t, Handler(last));
    t := Apply(c, t, Handler(last));
  }

  // ------------------------------------------------------------------ sweeping

  lemma {:induction false} SweepsAll(c: Config, s: State, u: State, gone: set<FileName>) returns (t: State)
    requires Leads(c, s, u) && u.up && u.cln.Sweeping? && gone <= Orphans(u.w.files, u.cln.keep, u.cln.cutoff)
    ensures Leads(c, s, t) && t == u.(w := u.w.(files := u.w.files - gone))
    decreases gone
  {
    if gone == {} {
      t := u;
      assert u.w.files - {} == u.w.files;
    } else {
      var p :| p in gone;
      LeadsOn(c, s, u, Clean(SweepOne(p)));
      t := SweepsAll(c, s, Apply(c, u, Clean(SweepOne(p))), gone - {p});
      assert u.w.files - {p} - (gone - {p}) == u.w.files - gone;
    }
  }

  /** The files `BundleStore.Sweep` removes can be removed one step at a time, whichever of them are stubborn. */
  lemma SweepIsARun(c: Config, s: State, stubborn: set<FileName>) returns (t: State)
    requires s.up && s.cln.Kept?
    ensures Leads(c, s, t)
    ensures t == s.(cln := Quiet,
                    w := s.w.(files := s.w.files - (Orphans(s.w.files, s.cln.keep, s.w.now - c.orphanAge) - stubborn)))
  {
    LeadsNowhere(c, s);
    LeadsOn(c, s, s, Clean(SweepBegin));
    var u := Apply(c, s, Clean(SweepBegin));
    t := SweepsAll(c, s, u, Orphans(u.w.files, u.cln.keep, u.cln.cutoff) - stubborn);
    LeadsOn(c, s, t, Clean(StopSweep));
    t := Apply(c, t, Clean(StopSweep));
  }

  // ------------------------------------------------------------------ recovery

  lemma {:induction false} RequeuesAll(c: Config, s: State, u: State) returns (t: State)
    requires Leads(c, s, u) && u.rp.Requeueing?
    ensures Leads(c, s, t)
    ensures t == u.(queue := u.queue + u.rp.enq, unfinished := u.unfinished + |u.rp.enq|, rp := Requeueing([], u.rp.fail))
    decreases |u.rp.enq|
  {
    if u.rp.enq == [] {
      t := u;
      assert u.queue + [] == u.queue;
    } else {
      LeadsOn(c, s, u, Reap(Requeue));
      var v := Apply(c, u, Reap(Requeue));
      t := RequeuesAll(c, s, v);
      assert v.queue + v.rp.enq == u.queue + u.rp.enq;
    }
  }

  /** How one failure notice and the discard after it turn out. */
  datatype Notification = Notification(resp: Response, landed: bool, deleted: bool)

  /** What Spring may answer to the notices, one after the other. */
  predicate Answers(spring: map<JobId, Report>, fail: seq<Claim>, ns: seq<Notification>)
    decreases fail
  {
    |ns| == |fail| &&
    (fail != [] ==>
       && SpringMay(spring, fail[0].job, ns[0].resp, ns[0].landed)
       && Answers(Posted(spring, fail[0].job, Notice, ns[0].landed), fail[1..], ns[1..]))
  }

  /** The files that went, and the notices that landed. */
  function PathsOf(fail: seq<Claim>, ns: seq<Notification>): set<FileName>
    requires |ns| == |fail|
  {
    if fail == [] then {} else (if ns[0].deleted then {fail[0].path} else {}) + PathsOf(fail[1..], ns[1..])
  }

  function Noticed(spring: map<JobId, Report>, fail: seq<Claim>, ns: seq<Notification>): map<JobId, Report>
    requires |ns| == |fail|
    decreases fail
  {
    if fail == [] then spring else Noticed(Posted(spring, fail[0].job, Notice, ns[0].landed), fail[1..], ns[1..])
  }

  /** One notice and its discard. */
  lemma ReportsOne(c: Config, s: State, u: State, n: Notification) returns (t: State)
    requires Leads(c, s, u) && ReportingNext(u.rp) && u.rp.fail != []
    requires SpringMay(u.w.spring, u.rp.fail[0].job, n.resp, n.landed)
    ensures Leads(c, s, t)
    ensures t == u.(rp := Reporting(u.rp.fail[1..]),
                    w := u.w.(spring := Posted(u.w.spring, u.rp.fail[0].job, Notice, n.landed),
                              files := Discarded(u.w.files, u.rp.fail[0].path, n.deleted)))
  {
    LeadsOn(c, s, u, Reap(NotifyFailed(n.resp, n.landed)));
    var v := Apply(c, u, Reap(NotifyFailed(n.resp, n.landed)));
    LeadsOn(c, s, v, Reap(DropFailed(n.deleted)));
    t := Apply(c, v, Reap(DropFailed(n.deleted)));
  }

  lemma {:induction false} ReportsAll(c: Config, s: State, u: State, ns: seq<Notification>) returns (t: State)
    requires Leads(c, s, u) && ReportingNext(u.rp) && Answers(u.w.spring, u.rp.fail, ns)
    ensures Leads(c, s, t)
    ensures t == u.(up := true, rp := Waiting, w := u.w.(spring := Noticed(u.w.spring, u.rp.fail, ns),
                                                         files := u.w.files - PathsOf(u.rp.fail, ns)))
    decreases |u.rp.fail|
  {
    if u.rp.fail == [] {
      LeadsOn(c, s, u, Reap(Rest));
      t := Apply(c, u, Reap(Rest));
      assert u.w.files - {} == u.w.files;
    } else {
      var v := ReportsOne(c, s, u, ns[0]);
      t := ReportsAll(c, s, v, ns[1..]);
      assert v.w.files - PathsOf(u.rp.fail[1..], ns[1..]) == u.w.files - PathsOf(u.rp.fail, ns);
    }
  }

  /**
   What `JobTable.RecoverRunning` computes is what recovery does step by step, whatever Spring answers
   and whichever deletes fail: the same rows, its first list queued in order, the files and notices of
   its second list as they turned out.
   */
  lemma RecoveryIsARun(c: Config, s: State, ns: seq<Notification>) returns (t: State)
    requires s.rp.Selected? && forall k :: 0 <= k < |s.rp.claims| ==> s.rp.claims[k].job in s.w.rows
    requires Answers(s.w.spring, ToFail(s.rp.claims, c.maxRequeue), ns)
    ensures Leads(c, s, t) && t.up && t.rp.Waiting?
    ensures t.w.rows == RecoverRows(s.w.rows, s.rp.claims, c.maxRequeue, s.w.now)
    ensures t.queue == s.queue + ToEnqueue(s.rp.claims, c.maxRequeue)
    ensures t.w.files == s.w.files - PathsOf(ToFail(s.rp.claims, c.maxRequeue), ns)
    ensures t.w.spring == Noticed(s.w.spring, ToFail(s.rp.claims, c.maxRequeue), ns)
  {
    LeadsNowhere(c, s);
    LeadsOn(c, s, s, Reap(CommitRecovery));
    t := RequeuesAll(c, s, Apply(c, s, Reap(CommitRecovery)));
    t := ReportsAll(c, s, t, ns);
  }

  // ------------------------------------------------------------------ redelivery

  /** The parcels of the overdue rows that have a result; the others are skipped. */
  function Parcels(pending: seq<Overdue>): seq<Parcel> {
    if pending == [] then []
    else (if pending[0].result.Some? then [ParcelFor(pending[0])] else []) + Parcels(pending[1..])
  }

  function ParcelFor(o: Overdue): Parcel
    requires o.result.Some?
  {
    Parcel(o.job, o.path, o.result.value)
  }

  /** Reload and send. */
  lemma SendsOne(c: Config, s: State, u: State, o: Overdue, todo: seq<Parcel>, resp: Response, landed: bool)
    returns (t: State)
    requires Leads(c, s, u) && u.up && o.result.Some? && u.rec == Walking([ParcelFor(o)] + todo)
    requires SpringMay(u.w.spring, o.job, resp, landed)
    ensures Leads(c, s, t) && t.up
    ensures t.rec == if Classify(resp).Retry? then Walking(todo) else Marking(ParcelFor(o), Classify(resp).Accepted?, todo)
    ensures t.w.rows == u.w.rows && t.w.files == u.w.files && t.w.now == u.w.now
    ensures forall j :: j != o.job ==> (j in t.w.spring <==> j in u.w.spring)
  {
    LeadsOn(c, s, u, Reconcile(Reload));
    var v := Apply(c, u, Reconcile(Reload));
    assert v == u.(rec := Loaded(ParcelFor(o), o.path in u.w.files, todo));
    LeadsOn(c, s, v, Reconcile(Redeliver(resp, landed)));
    t := Apply(c, v, Reconcile(Redeliver(resp, landed)));
  }

  /** Mark, and discard if this moved the row. */
  lemma ConfirmsOne(c: Config, s: State, u: State, pc: Parcel, ok: bool, todo: seq<Parcel>) returns (t: State)
    requires Leads(c, s, u) && u.up && u.rec == Marking(pc, ok, todo)
    ensures Leads(c, s, t) && t.up && t.rec == Walking(todo) && t.w.now == u.w.now && t.w.spring == u.w.spring
    ensures t.w.rows == MarkRows(u.w.rows, pc.job, ok, u.w.now)
    ensures t.w.files == Discarded(u.w.files, pc.path, pc.job in u.w.rows && u.w.rows[pc.job].status.Delivering?)
  {
    LeadsOn(c, s, u, Reconcile(Confirm));
    t := Apply(c, u, Reconcile(Confirm));
    if t.rec.Dropping? {
      LeadsOn(c, s, t, Reconcile(DropParcel(true)));
      t := Apply(c, t, Reconcile(DropParcel(true)));
    }
  }

  /** One item of the loop. */
  lemma RedeliversOne(c: Config, s: State, u: State, o: Overdue, todo: seq<Parcel>, resp: Response, landed: bool)
    returns (t: State)
    requires Leads(c, s, u) && u.up && o.result.Some? && u.rec == Walking([ParcelFor(o)] + todo)
    requires SpringMay(u.w.spring, o.job, resp, landed)
    ensures Leads(c, s, t) && t.up && t.rec == Walking(todo) && t.w.now == u.w.now
    ensures t.w.rows == RowsAfter(u.w.rows, o, resp, u.w.now)
    ensures t.w.files == Discarded(u.w.files, o.path, Moves(u.w.rows, o, resp))
    ensures forall j :: j != o.job ==> (j in t.w.spring <==> j in u.w.spring)
  {
    t := SendsOne(c, s, u, o, todo, resp, landed);
    if !Classify(resp).Retry? {
      t := ConfirmsOne(c, s, t, ParcelFor(o), Classify(resp).Accepted?, todo);
    }
  }

  /** What the query and Spring allow: overdue rows of different jobs, and an answer for each. */
  ghost predicate RoundOf(c: Config, s: State, pending: seq<Overdue>, resps: seq<Response>, landed: seq<bool>) {
    && |pending| == |resps| == |landed|
    && (forall a, b :: 0 <= a < b < |pending| ==> pending[a].job != pending[b].job)
    && forall k :: 0 <= k < |pending| && pending[k].result.Some? ==>
         ParcelOf(c, s, ParcelFor(pending[k])) && SpringMay(s.w.spring, pending[k].job, resps[k], landed[k])
  }

  lemma {:induction false} ParcelsAreOverdue(c: Config, s: State, pending: seq<Overdue>)
    requires forall k :: 0 <= k < |pending| && pending[k].result.Some? ==> ParcelOf(c, s, ParcelFor(pending[k]))
    ensures forall k :: 0 <= k < |Parcels(pending)| ==> ParcelOf(c, s, Parcels(pending)[k])
  {
    if pending != [] {
      ParcelsAreOverdue(c, s, pending[1..]);
    }
  }

  /** After `n` items the step system has the rows and files of the loop. */
  lemma {:induction false} RedeliversSome(c: Config, s: State, pending: seq<Overdue>, resps: seq<Response>, landed: seq<bool>, n: nat)
    returns (t: State)
    requires s.up && s.rec.Resting? && RoundOf(c, s, pending, resps, landed) && n <= |pending|
    ensures Leads(c, s, t) && t.up && t.rec == Walking(Parcels(pending[n..])) && t.w.now == s.w.now
    ensures var l := Redelivered(Ledger(s.w.rows, s.w.files, 0), pending, resps, s.w.now, n);
      t.w.rows == l.rows && t.w.files == l.files
    ensures forall k :: n <= k < |pending| ==> (pending[k].job in t.w.spring <==> pending[k].job in s.w.spring)
  {
    if n == 0 {
      assert pending[0..] == pending;
      ParcelsAreOverdue(c, s, pending);
      LeadsNowhere(c, s);
      LeadsOn(c, s, s, Reconcile(Scan(Parcels(pending))));
      t := Apply(c, s, Reconcile(Scan(Parcels(pending))));
    } else {
      t := RedeliversSome(c, s, pending, resps, landed, n - 1);
      assert pending[n - 1..][1..] == pending[n..];
      var o := pending[n - 1];
      if o.result.Some? {
        t := RedeliversOne(c, s, t, o, Parcels(pending[n..]), resps[n - 1], landed[n - 1]);
      }
    }
  }

  /** A round of `RedeliverOnce` over overdue rows is a run: the same rows and files, the reconciler at rest again. */
  lemma RedeliveryIsARun(c: Config, s: State, pending: seq<Overdue>, resps: seq<Response>, landed: seq<bool>)
    returns (t: State)
    requires s.up && s.rec.Resting? && RoundOf(c, s, pending, resps, landed)
    ensures Leads(c, s, t) && t.rec.Resting?
    ensures var l := Redelivered(Ledger(s.w.rows, s.w.files, 0), pending, resps, s.w.now, |pending|);
      t.w.rows == l.rows && t.w.files == l.files
  {
    t := RedeliversSome(c, s, pending, resps, landed, |pending|);
    LeadsOn(c, s, t, Reconcile(StopScan));
    t := Apply(c, t, Reconcile(StopScan));
  }
}
