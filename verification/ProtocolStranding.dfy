/**
 Who has a PENDING job between two restarts.

 A PENDING row is on its way: a request is about to queue it, it has a queue slot, a worker is about to
 start it, or recovery is about to queue it. `Drops` lists the events that let go of a job; nothing
 but a restart picks it up again.
 */
module ProtocolStranding {
  import opened JobProtocol
  import opened ProtocolInvariant
  import opened ProtocolSteps
  import opened ProtocolActors
  import opened ProtocolRecovery
  import opened ProtocolTheorems
  import opened ProtocolWitness

  // ------------------------------------------------------------------ holders

  /** A worker that has taken a job and not marked it RUNNING. */
  predicate Starting(wk: Worker) {
    wk.Fetched? || wk.Restoring? || wk.Ready? || wk.Missing?
  }

  /** The jobs the reaper is about to queue. */
  function ToQueue(rp: Reaper): seq<JobId> {
    match rp
    case Listed(ids) => ids
    case Requeueing(enq, _) => enq
    case _ => []
  }

  ghost predicate WithWorker(ws: seq<Worker>, j: JobId) {
    exists i :: 0 <= i < |ws| && Starting(ws[i]) && ws[i].job == j
  }

  ghost predicate InHand(s: State, j: JobId) {
    j in s.queue || j in ToQueue(s.rp) || AboutToEnqueue(s.w, j) || WithWorker(s.workers, j)
  }

  /** A PENDING row nobody has, once the reaper has listed what the last restart left. */
  ghost predicate Stranded(s: State, j: JobId) {
    !s.rp.AtBoot? && PendingRow(s.w, j) && !InHand(s, j)
  }

  /**
   The events that let go of job `j`: a request cancelled after its commit, an error the request sees
   although its row is persisted, a worker leaving before it starts, and a reaper that stops early.
   */
  predicate Drops(s: State, e: Event, j: JobId) {
    match e
    case Handler(Gone(p)) => p in s.w.ingests && s.w.ingests[p] == Committed(j)
    case Handler(RefreshFails(_)) => j == s.w.nextJob
    case Work(i, Abandon) => i < |s.workers| && Starting(s.workers[i]) && s.workers[i].job == j
    case Reap(GiveUp) => j in ToQueue(s.rp) || (s.rp.AtBoot? && j in s.w.rows && s.w.rows[j].status.Pending?)
    case _ => false
  }

  predicate NoCrash(es: seq<Event>) {
    forall k :: 0 <= k < |es| ==> !es[k].Crash?
  }

  /** Some event drops the job and the process does not restart afterwards. */
  ghost predicate DroppedIn(c: Config, s: State, es: seq<Event>, j: JobId)
    requires Run(c, s, es)
    decreases es
  {
    es != [] && ((Drops(s, es[0], j) && NoCrash(es[1..])) || DroppedIn(c, Apply(c, s, es[0]), es[1..], j))
  }

  // ------------------------------------------------------------------ only a drop strands, whatever the settings

  /** File names of requests have been given out. */
  ghost predicate NamesGivenOut(w: World) {
    forall p :: p in w.ingests ==> p < w.nextFile
  }

  lemma EventNames(c: Config, s: State, e: Event)
    requires Enabled(c, s, e) && NamesGivenOut(s.w)
    ensures NamesGivenOut(Apply(c, s, e).w)
  {
    match e
    case Work(i, a) => WorkerFrame(c, s, i, a);
    case _ =>
  }

  /** A request that has committed keeps its job until it queues it or is gone. */
  lemma RequestHolds(c: Config, s: State, a: IngestAct, q: FileName, j: JobId)
    requires IngestEnabled(c, s, a) && NamesGivenOut(s.w) && !Drops(s, Handler(a), j)
    requires q in s.w.ingests && s.w.ingests[q] == Committed(j)
    ensures InHand(ApplyIngest(c, s, a), j)
  {
    var t := ApplyIngest(c, s, a);
    if a == Enqueue(q) {
      assert t.queue[|s.queue|] == j;
    } else {
      assert q in t.w.ingests && t.w.ingests[q] == Committed(j);
    }
  }

  lemma IngestStrands(c: Config, s: State, a: IngestAct, j: JobId)
    requires IngestEnabled(c, s, a) && NamesGivenOut(s.w) && Stranded(ApplyIngest(c, s, a), j)
    ensures Stranded(s, j) || Drops(s, Handler(a), j)
  {
    var t := ApplyIngest(c, s, a);
    if !Drops(s, Handler(a), j) {
      forall q | q in s.w.ingests ensures s.w.ingests[q] != Committed(j) {
        if s.w.ingests[q] == Committed(j) {
          RequestHolds(c, s, a, q, j);
        }
      }
      assert a.Commit? ==> t.w.ingests[a.p] == Committed(s.w.nextJob);
      assert forall k :: k in s.queue ==> k in t.queue;
    }
  }

  lemma WorkerStrands(c: Config, s: State, i: nat, a: WorkerAct, j: JobId)
    requires WorkerEnabled(c, s, i, a) && Stranded(ApplyWorker(c, s, i, a), j)
    ensures Stranded(s, j) || Drops(s, Work(i, a), j)
  {
    var t := ApplyWorker(c, s, i, a);
    WorkerFrame(c, s, i, a);
    assert AboutToEnqueue(t.w, j) <==> AboutToEnqueue(s.w, j);
    assert a.Take? ==> s.queue == [s.queue[0]] + t.queue && t.workers[i] == Fetched(s.queue[0]);
    assert forall k :: 0 <= k < |s.workers| && k != i ==> t.workers[k] == s.workers[k];
  }

  /** Recovery makes a row PENDING only to queue it. */
  lemma {:induction false} RecoveredPending(rows: map<JobId, Row>, claims: seq<Claim>, max: nat, now: int, j: JobId)
    requires var t := RecoverRows(rows, claims, max, now); j in t && t[j].status.Pending?
    ensures j in rows && (rows[j].status.Pending? || j in ToEnqueue(claims, max))
  {
    if claims != [] {
      if claims[0].job != j || claims[0].job !in rows {
        RecoveredPending(rows, claims[1..], max, now, j);
      }
    }
  }

  lemma ReaperStrands(c: Config, s: State, a: ReaperAct, j: JobId)
    requires ReaperEnabled(c, s, a) && Stranded(ApplyReaper(c, s, a), j)
    ensures Stranded(s, j) || Drops(s, Reap(a), j)
  {
    var t := ApplyReaper(c, s, a);
    assert AboutToEnqueue(t.w, j) <==> AboutToEnqueue(s.w, j);
    if a.CommitRecovery? {
      RecoveredPending(s.w.rows, s.rp.claims, c.maxRequeue, s.w.now, j);
    }
    if a.QueuePending? || a.Requeue? {
      var ids := ToQueue(s.rp);
      assert ids == [ids[0]] + ToQueue(t.rp) && t.queue == s.queue + [ids[0]];
    }
  }

  lemma EventStrands(c: Config, s: State, e: Event, j: JobId)
    requires Enabled(c, s, e) && NamesGivenOut(s.w) && Stranded(Apply(c, s, e), j)
    ensures !e.Crash? && (Stranded(s, j) || Drops(s, e, j))
  {
    match e
    case Handler(a) => IngestStrands(c, s, a, j);
    case Work(i, a) => WorkerStrands(c, s, i, a, j);
    case Reap(a) => ReaperStrands(c, s, a, j);
    case Crash =>
    case _ => assert AboutToEnqueue(Apply(c, s, e).w, j) <==> AboutToEnqueue(s.w, j);
  }

  lemma {:induction false} RunStrands(c: Config, s: State, es: seq<Event>, j: JobId)
    requires Run(c, s, es) && NamesGivenOut(s.w) && Stranded(After(c, s, es), j)
    ensures (Stranded(s, j) && NoCrash(es)) || DroppedIn(c, s, es, j)
    decreases es
  {
    if es != [] {
      EventNames(c, s, es[0]);
      RunStrands(c, Apply(c, s, es[0]), es[1..], j);
      if Stranded(Apply(c, s, es[0]), j) && NoCrash(es[1..]) {
        EventStrands(c, s, es[0], j);
      }
    }
  }

  /** In every run of every deployment, a PENDING job without a holder was dropped since the last restart. */
  lemma {:induction false} StrandedWasDropped(c: Config, es: seq<Event>, j: JobId)
    requires Run(c, Init(c), es) && Stranded(After(c, Init(c), es), j)
    ensures DroppedIn(c, Init(c), es, j)
  {
    RunStrands(c, Init(c), es, j);
  }

  // ------------------------------------------------------------------ a stranded job stays so until a restart

  /** A PENDING row has no worker beyond its start. */
  lemma NotYetStarted(c: Config, s: State, i: nat, j: JobId)
    requires WorkersOk(c, s) && PendingRow(s.w, j) && i < |s.workers| && Holds(s.workers[i]) && s.workers[i].job == j
    ensures Starting(s.workers[i])
  {
    assert WorkerOk(c, s.w, s.workers[i]);
  }

  lemma IngestStaysStranded(c: Config, s: State, a: IngestAct, j: JobId)
    requires WorldOk(c, s.w) && IngestEnabled(c, s, a) && Stranded(s, j)
    ensures Stranded(ApplyIngest(c, s, a), j)
  {
    var t := ApplyIngest(c, s, a);
    assert RowOk(c, s.w, j);
    forall q | q in t.w.ingests ensures t.w.ingests[q] != Committed(j) {
      assert q in s.w.ingests ==> s.w.ingests[q] != Committed(j);
    }
    assert a.Enqueue? ==> s.w.ingests[a.p] == Committed(s.w.ingests[a.p].job);
    assert PendingRow(t.w, j);
  }

  /** The row of a stranded job is none of the worker's. */
  lemma StrandedUntouched(c: Config, s: State, i: nat, a: WorkerAct, j: JobId)
    requires WorkersOk(c, s) && WorkerEnabled(c, s, i, a) && Stranded(s, j)
    ensures j !in Touched(s, i, a)
  {
    assert WorkerOk(c, s.w, s.workers[i]);
  }

  lemma WorkerStaysStranded(c: Config, s: State, i: nat, a: WorkerAct, j: JobId)
    requires Orderly(c) && Inv(c, s) && WorkerEnabled(c, s, i, a) && Stranded(s, j)
    ensures Stranded(ApplyWorker(c, s, i, a), j)
  {
    var t := ApplyWorker(c, s, i, a);
    WorkerFrame(c, s, i, a);
    StrandedUntouched(c, s, i, a, j);
    WorkerKeeps(c, s, i, a);
    assert PendingRow(t.w, j);
    assert AboutToEnqueue(t.w, j) <==> AboutToEnqueue(s.w, j);
    forall k | 0 <= k < |t.workers| && Starting(t.workers[k]) ensures t.workers[k].job != j {
      if k == i && !a.Take? && t.workers[k].job == j {
        NotYetStarted(c, s, i, j);
      }
    }
  }

  lemma CommitStaysStranded(c: Config, s: State, j: JobId)
    requires Inv(c, s) && ReaperEnabled(c, s, CommitRecovery) && Stranded(s, j)
    ensures Stranded(ApplyReaper(c, s, CommitRecovery), j)
  {
    IsClaiming(c, s);
    forall k | 0 <= k < |s.rp.claims| ensures s.rp.claims[k].job != j {
      assert ClaimOk(s.w, s.rp.claims[k]);
    }
    RecoverRowsAt(s.w.rows, s.rp.claims, c.maxRequeue, s.w.now);
    EnqMember(s.rp.claims, c.maxRequeue, j);
    var t := ApplyReaper(c, s, CommitRecovery);
    assert AboutToEnqueue(t.w, j) <==> AboutToEnqueue(s.w, j);
  }

  lemma ReaperStaysStranded(c: Config, s: State, a: ReaperAct, j: JobId)
    requires Inv(c, s) && ReaperEnabled(c, s, a) && Stranded(s, j)
    ensures Stranded(ApplyReaper(c, s, a), j)
  {
    if a.CommitRecovery? {
      CommitStaysStranded(c, s, j);
    } else {
      var t := ApplyReaper(c, s, a);
      assert AboutToEnqueue(t.w, j) <==> AboutToEnqueue(s.w, j);
      if a.QueuePending? || a.Requeue? {
        var ids := ToQueue(s.rp);
        assert ids == [ids[0]] + ToQueue(t.rp) && t.queue == s.queue + [ids[0]];
      }
    }
  }

  lemma StaysStranded(c: Config, s: State, e: Event, j: JobId)
    requires Orderly(c) && Inv(c, s) && Enabled(c, s, e) && !e.Crash? && Stranded(s, j)
    ensures Stranded(Apply(c, s, e), j)
  {
    match e
    case Handler(a) => IngestStaysStranded(c, s, a, j);
    case Work(i, a) => WorkerStaysStranded(c, s, i, a, j);
    case Reap(a) => ReaperStaysStranded(c, s, a, j);
    case Crash =>
    case _ => assert AboutToEnqueue(Apply(c, s, e).w, j) <==> AboutToEnqueue(s.w, j);
  }

  // ------------------------------------------------------------------ every drop strands

  lemma GoneStrands(c: Config, s: State, p: FileName, j: JobId)
    requires Inv(c, s) && IngestEnabled(c, s, Gone(p)) && s.w.ingests[p] == Committed(j)
    ensures Stranded(ApplyIngest(c, s, Gone(p)), j)
  {
    assert IngestOk(c, s.w, p);
    assert AboutToEnqueue(s.w, j);
    forall q | q in s.w.ingests && q != p ensures s.w.ingests[q] != Committed(j) {
      assert IngestOk(c, s.w, q);
    }
    RequestIsAlone(s, j);
  }

  /** A job a request is about to queue is with nobody else. */
  lemma RequestIsAlone(s: State, j: JobId)
    requires OneHolder(s) && AboutToEnqueue(s.w, j)
    ensures j !in s.queue && j !in ToQueue(s.rp) && !WithWorker(s.workers, j)
  {
    assert j in ToQueue(s.rp) ==> j in ReaperJobs(s.rp);
  }

  lemma RefreshStrands(c: Config, s: State, p: FileName)
    requires Inv(c, s) && IngestEnabled(c, s, RefreshFails(p))
    ensures Stranded(ApplyIngest(c, s, RefreshFails(p)), s.w.nextJob)
  {
    var j := s.w.nextJob;
    HeldIsOld(c, s, j);
    assert j in ToQueue(s.rp) ==> j in ReaperJobs(s.rp);
    forall q | q in s.w.ingests ensures s.w.ingests[q] != Committed(j) {
      assert IngestOk(c, s.w, q);
      assert j in s.w.rows ==> RowOk(c, s.w, j);
    }
  }

  lemma AbandonStrands(c: Config, s: State, i: nat, j: JobId)
    requires Orderly(c) && Inv(c, s) && WorkerEnabled(c, s, i, Abandon) && Starting(s.workers[i]) && s.workers[i].job == j
    ensures Stranded(ApplyWorker(c, s, i, Abandon), j)
  {
    var t := ApplyWorker(c, s, i, Abandon);
    assert WorkerOk(c, s.w, s.workers[i]) && Holds(s.workers[i]);
    assert j in ToQueue(s.rp) ==> j in ReaperJobs(s.rp);
    forall k | 0 <= k < |t.workers| && Starting(t.workers[k]) ensures t.workers[k].job != j {
      assert k != i && Holds(s.workers[k]);
    }
  }

  lemma GiveUpStrands(c: Config, s: State, j: JobId)
    requires Inv(c, s) && Drops(s, Reap(GiveUp), j)
    ensures Stranded(ApplyReaper(c, s, GiveUp), j)
  {
    if j in ToQueue(s.rp) {
      var k :| 0 <= k < |ToQueue(s.rp)| && ToQueue(s.rp)[k] == j;
      assert j in ReaperJobs(s.rp) && PendingRow(s.w, ToQueue(s.rp)[k]);
    }
  }

  lemma DropStrands(c: Config, s: State, e: Event, j: JobId)
    requires Orderly(c) && Inv(c, s) && Enabled(c, s, e) && Drops(s, e, j)
    ensures Stranded(Apply(c, s, e), j)
  {
    match e
    case Handler(Gone(p)) => GoneStrands(c, s, p, j);
    case Handler(RefreshFails(p)) => RefreshStrands(c, s, p);
    case Work(i, Abandon) => AbandonStrands(c, s, i, j);
    case Reap(GiveUp) => GiveUpStrands(c, s, j);
  }

  // ------------------------------------------------------------------ along runs

  lemma EventStrandsExactly(c: Config, s: State, e: Event, j: JobId)
    requires Orderly(c) && Inv(c, s) && Enabled(c, s, e)
    ensures !e.Crash? && (Stranded(s, j) || Drops(s, e, j)) ==> Stranded(Apply(c, s, e), j)
  {
    if Drops(s, e, j) {
      DropStrands(c, s, e, j);
    } else if Stranded(s, j) && !e.Crash? {
      StaysStranded(c, s, e, j);
    }
  }

  lemma {:induction false} RunStrandsExactly(c: Config, s: State, es: seq<Event>, j: JobId)
    requires Orderly(c) && Inv(c, s) && Run(c, s, es)
    ensures ((Stranded(s, j) && NoCrash(es)) || DroppedIn(c, s, es, j)) ==> Stranded(After(c, s, es), j)
    decreases es
  {
    if es != [] {
      var t := Apply(c, s, es[0]);
      var _ := EventKeeps(c, s, es[0]);
      RunStrandsExactly(c, t, es[1..], j);
      EventStrandsExactly(c, s, es[0], j);
      assert NoCrash(es) ==> !es[0].Crash? && NoCrash(es[1..]);
    }
  }

  /** With order, a job is stranded exactly when it was dropped and the process has not restarted since. */
  lemma {:induction false} StrandedExactly(c: Config, es: seq<Event>, j: JobId)
    requires Orderly(c) && Run(c, Init(c), es)
    ensures Stranded(After(c, Init(c), es), j) <==> DroppedIn(c, Init(c), es, j)
  {
    InitInv(c);
    if Stranded(After(c, Init(c), es), j) {
      StrandedWasDropped(c, es, j);
    }
    RunStrandsExactly(c, Init(c), es, j);
  }

  // ------------------------------------------------------------------ one holder, and no fewer

  datatype Holder = Slot(k: nat) | Listing(k: nat) | Request(p: FileName) | Hand(i: nat)

  predicate HeldBy(s: State, j: JobId, h: Holder) {
    match h
    case Slot(k) => k < |s.queue| && s.queue[k] == j
    case Listing(k) => k < |ToQueue(s.rp)| && ToQueue(s.rp)[k] == j
    case Request(p) => p in s.w.ingests && s.w.ingests[p] == Committed(j)
    case Hand(i) => i < |s.workers| && Starting(s.workers[i]) && s.workers[i].job == j
  }

  ghost predicate ExactlyOneHolder(s: State, j: JobId) {
    exists h :: HeldBy(s, j, h) && forall g :: HeldBy(s, j, g) ==> g == h
  }

  lemma SomeHolder(s: State, j: JobId) returns (h: Holder)
    requires InHand(s, j)
    ensures HeldBy(s, j, h)
  {
    if k :| 0 <= k < |s.queue| && s.queue[k] == j {
      h := Slot(k);
    } else if k :| 0 <= k < |ToQueue(s.rp)| && ToQueue(s.rp)[k] == j {
      h := Listing(k);
    } else if p :| p in s.w.ingests && s.w.ingests[p] == Committed(j) {
      h := Request(p);
    } else {
      var i :| 0 <= i < |s.workers| && Starting(s.workers[i]) && s.workers[i].job == j;
      h := Hand(i);
    }
  }

  lemma HolderIsInHand(s: State, j: JobId, h: Holder)
    requires HeldBy(s, j, h)
    ensures InHand(s, j)
    ensures h.Slot? ==> j in s.queue
    ensures h.Listing? ==> j in ToQueue(s.rp) && j in ReaperJobs(s.rp)
    ensures h.Request? ==> AboutToEnqueue(s.w, j)
  {
  }

  lemma OneAtMost(c: Config, s: State, j: JobId, g: Holder, h: Holder)
    requires WorldOk(c, s.w) && OneHolder(s) && HeldBy(s, j, g) && HeldBy(s, j, h)
    ensures g == h
  {
    HolderIsInHand(s, j, g);
    HolderIsInHand(s, j, h);
    if g.Request? && h.Request? {
      assert IngestOk(c, s.w, g.p) && IngestOk(c, s.w, h.p);
    }
    if g.Hand? && h.Hand? {
      assert Holds(s.workers[g.i]) && Holds(s.workers[h.i]);
    }
  }

  /**
   From the reaper's first list on, a PENDING job has exactly one holder unless it was dropped since the
   last restart; then it has none.
   */
  lemma {:induction false} OneHolderExactly(c: Config, es: seq<Event>, j: JobId)
    requires Orderly(c) && Run(c, Init(c), es)
    requires PendingRow(After(c, Init(c), es).w, j) && !After(c, Init(c), es).rp.AtBoot?
    ensures ExactlyOneHolder(After(c, Init(c), es), j) <==> !DroppedIn(c, Init(c), es, j)
  {
    var s := After(c, Init(c), es);
    InitInv(c);
    RunKeeps(c, Init(c), es);
    StrandedExactly(c, es, j);
    if !Stranded(s, j) {
      var h := SomeHolder(s, j);
      forall g | HeldBy(s, j, g) ensures g == h {
        OneAtMost(c, s, j, g, h);
      }
    }
    if h :| HeldBy(s, j, h) {
      HolderIsInHand(s, j, h);
    }
  }

  /** Such runs exist under any settings: a request is cancelled between its commit and the queue. */
  lemma CancelledRequestStrands(c: Config)
    ensures exists s :: Reachable(c, s) && s.up && Stranded(s, 0)
  {
    var s0 := Base(c);
    ReachBase(c);
    ReachStep(c, s0, Handler(Write));
    var s1 := Apply(c, s0, Handler(Write));
    ReachStep(c, s1, Handler(Commit(0)));
    var s2 := Apply(c, s1, Handler(Commit(0)));
    ReachStep(c, s2, Handler(Gone(0)));
    var s3 := Apply(c, s2, Handler(Gone(0)));
    assert s3.w.ingests == map[] && s3.queue == [] && s3.rp == Waiting;
    assert Stranded(s3, 0);
  }
}
