/** The job queue over runs: claims are in id order, each job is claimed at most once, a
    pending job waits for fewer claims than its id, and without new orders the queue drains. */
module Queue {
  import opened Schema
  import opened Repository
  import opened Calls
  import opened Local
  import opened Engine
  import opened CoreInvariant
  import opened CoreSteps
  import opened Effects
  import opened Provisioning
  import W = Workers
  import Serializable

  predicate Pending(t: Tables, j: int) {
    HasJob(t, j) && JobIn(t, j).status.JobPending?
  }

  ghost function PendingJobs(t: Tables): (ids: set<int>)
    ensures forall j :: j in ids <==> Pending(t, j)
  {
    set a | a in t && a.JobAt? && t[a].JobRow? && t[a].job.status.JobPending? :: a.id
  }

  ghost function AllJobs(t: Tables): (ids: set<int>)
    ensures forall j :: j in ids <==> HasJob(t, j)
  {
    set a | a in t && a.JobAt? && t[a].JobRow? :: a.id
  }

  lemma BuyerHoldsNew(t: Tables, p: Buyer, j: int)
    requires TailFacts(t, p) && p.locks == LocksAt(p) && HasJob(t, j)
    ensures JobAt(j) !in p.locks
  {
  }

  /** A committed job row is locked by nobody: its inserter has committed. */
  lemma JobsUnlocked(s: State, j: int)
    requires Core(s) && HasJob(s.db, j)
    ensures JobAt(j) !in Locked(s.procs, {})
  {
    forall tid | tid in s.procs
      ensures JobAt(j) !in LocksOf(s.procs[tid])
    {
      assert ProcInv(s.db, s.procs[tid]);
      if s.procs[tid].Buying? {
        BuyerHoldsNew(s.db, s.procs[tid].buyer, j);
      }
    }
  }

  /** What ClaimNext may take is exactly what is pending. */
  lemma ClaimableIsPending(s: State)
    requires ProvisionInv(s)
    ensures W.Claimable(s.db, Locked(s.procs, {})) == PendingJobs(s.db)
  {
    forall j
      ensures j in W.Claimable(s.db, Locked(s.procs, {})) <==> Pending(s.db, j)
    {
      if Pending(s.db, j) {
        JobsUnlocked(s, j);
        assert JobSound(s.db, s.lost, j);
      }
    }
  }

  /** A claim takes the least pending job, of which it changes the status alone, and leaves every
      other row as it is. */
  lemma ClaimTakesLeast(s: State, s': State, tid: int)
    requires ProvisionInv(s) && ClaimNext(s, tid) == Some(s')
    ensures PendingJobs(s.db) != {}
    ensures var j := Least(PendingJobs(s.db));
            && PendingJobs(s'.db) == PendingJobs(s.db) - {j}
            && AllJobs(s'.db) == AllJobs(s.db)
            && s'.db == s.db[JobAt(j) := JobRow(JobIn(s.db, j).(status := JobProvisioning))]
            && s'.procs == s.procs[tid := Working(W.Claim(j, JobIn(s.db, j)))]
  {
    ClaimableIsPending(s);
    var j := Least(PendingJobs(s.db));
    ClaimedOne(s.db, j, JobIn(s.db, j).(status := JobProvisioning));
  }

  lemma ClaimedOne(t: Tables, j: int, row: Job)
    requires HasJob(t, j) && !row.status.JobPending?
    ensures var u := t + map[JobAt(j) := JobRow(row)];
            && u == t[JobAt(j) := JobRow(row)]
            && PendingJobs(u) == PendingJobs(t) - {j} && AllJobs(u) == AllJobs(t)
  {
  }

  lemma ClaimPossible(s: State, tid: int)
    requires ProvisionInv(s) && PendingJobs(s.db) != {} && Unused(s, tid)
    ensures Next(s, Claim(tid)).Some?
  {
    ClaimableIsPending(s);
  }

  /** `u` has the jobs of `t` with the same pending ones among them, and possibly new pending
      jobs. */
  ghost predicate QueueGrows(t: Tables, u: Tables) {
    && (forall j :: HasJob(t, j) ==> HasJob(u, j) && (Pending(u, j) <==> Pending(t, j)))
    && (forall j :: HasJob(u, j) && !HasJob(t, j) ==> Pending(u, j))
  }

  lemma FinishGrows(t: Tables, w: W.Worker, writes: Tables)
    requires HasJob(t, w.job) && JobIn(t, w.job).status.JobProvisioning? && writes.Keys == {JobAt(w.job)}
    requires writes[JobAt(w.job)].JobRow? && !writes[JobAt(w.job)].job.status.JobPending?
    ensures QueueGrows(t, t + writes)
  {
  }

  lemma LinkGrows(t: Tables, w: W.Worker)
    requires WorkerInv(t, w)
    ensures QueueGrows(t, t + w.writes)
  {
  }

  lemma WorkGrows(s: State, s': State, tid: int, w: W.Worker, answer: Option<int>, heard: bool)
    requires ProvisionInv(s) && tid in s.procs && s.procs[tid] == Working(w)
    requires AdvanceWorker(s, tid, w, answer, heard) == Some(s')
    ensures QueueGrows(s.db, s'.db)
  {
    var out := W.WorkStatement(s.db, s.seqs.service, answer, w);
    match out
    case Onward(_) =>
    case Durable(_) => LinkGrows(s.db, w);
    case Finished(writes) =>
      assert WorkerSound(s.db, s.lost, w);
      FinishGrows(s.db, w, writes);
  }

  lemma PurchaseGrows(t: Tables, u: Tables, p: Buyer)
    requires Buys(t, u, p)
    ensures QueueGrows(t, u)
  {
  }

  lemma AdvanceGrows(s: State, s': State, tid: int, p: Buyer, heard: bool)
    requires Core(s) && tid in s.procs && s.procs[tid] == Buying(p)
    requires AdvanceBuyer(s, tid, p, heard) == Some(s')
    ensures QueueGrows(s.db, s'.db)
  {
    AdvanceEffect(s, s', tid, p, heard);
    if Serializable.Ready(p) {
      if p.call.TopUp? {
        DepositSameJobs(s.db, s'.db, p);
      } else {
        PurchaseGrows(s.db, s'.db, p);
      }
    }
  }

  lemma OthersGrow(s: State, l: Label, s': State)
    requires ProvisionInv(s)
    requires Next(s, l) == Some(s') && !l.Claim?
    ensures QueueGrows(s.db, s'.db)
  {
    match l
    case Advance(tid, heard) => AdvanceGrows(s, s', tid, s.procs[tid].buyer, heard);
    case Work(tid, answer, heard) => WorkGrows(s, s', tid, s.procs[tid].worker, answer, heard);
    case Disrupt(_) => assert s'.db == s.db;
    case _ => QuietLabel(s, l, s');
  }

  function Claims(ls: seq<Label>): nat {
    if ls == [] then 0 else (if ls[0].Claim? then 1 else 0) + Claims(ls[1..])
  }

  /** The ids below `j` that a claim may still take before `j`. */
  ghost function Ahead(t: Tables, j: int): set<int> {
    set i | 1 <= i < j && (HasJob(t, i) ==> Pending(t, i))
  }

  ghost function Below(j: int): (ids: set<int>)
    ensures forall i :: i in ids <==> 1 <= i < j
    decreases j
  {
    if j <= 1 then {} else Below(j - 1) + {j - 1}
  }

  lemma {:induction false} BelowSize(j: int)
    requires j >= 1
    ensures |Below(j)| == j - 1
    decreases j
  {
    if j > 1 {
      BelowSize(j - 1);
    }
  }

  lemma SubsetSize(a: set<int>, b: set<int>)
    requires a <= b
    ensures |a| <= |b|
  {
    assert b == a + (b - a);
  }

  /** While `j` stays pending, a claim uses up an id ahead of it, and nothing adds one. */
  lemma AheadShrinks(s: State, l: Label, s': State, j: int)
    requires ProvisionInv(s)
    requires Next(s, l) == Some(s')
    requires Pending(s.db, j) && Pending(s'.db, j)
    ensures |Ahead(s'.db, j)| + (if l.Claim? then 1 else 0) <= |Ahead(s.db, j)|
  {
    if l.Claim? {
      ClaimTakesLeast(s, s', l.tid);
      var i := Least(PendingJobs(s.db));
      assert j in PendingJobs(s.db) && j in PendingJobs(s'.db);
      assert Issued(s.seqs, JobAt(i));
      assert i in Ahead(s.db, j);
      assert i in AllJobs(s'.db) && i !in PendingJobs(s'.db);
      forall x | x in Ahead(s'.db, j)
        ensures x in Ahead(s.db, j) - {i}
      {
        assert x in AllJobs(s'.db) <==> x in AllJobs(s.db);
      }
      SubsetSize(Ahead(s'.db, j), Ahead(s.db, j) - {i});
    } else {
      OthersGrow(s, l, s');
      assert Ahead(s'.db, j) <= Ahead(s.db, j);
      SubsetSize(Ahead(s'.db, j), Ahead(s.db, j));
    }
  }

  /** Once a job has left the pending state it never returns to it. */
  lemma NeverPendingAgain(s: State, l: Label, s': State, j: int)
    requires ProvisionInv(s)
    requires Next(s, l) == Some(s')
    requires HasJob(s.db, j)
    ensures HasJob(s'.db, j)
    ensures !Pending(s.db, j) ==> !Pending(s'.db, j)
  {
    if l.Claim? {
      ClaimTakesLeast(s, s', l.tid);
      assert j in AllJobs(s.db) && j in AllJobs(s'.db);
      assert !Pending(s.db, j) ==> j !in PendingJobs(s.db);
    } else {
      OthersGrow(s, l, s');
    }
  }

  lemma {:induction false} StaysOut(s: State, ls: seq<Label>, s': State, j: int)
    requires ProvisionInv(s)
    requires Run(s, ls) == Some(s')
    requires HasJob(s.db, j) && !Pending(s.db, j)
    ensures HasJob(s'.db, j) && !Pending(s'.db, j)
    decreases |ls|
  {
    if ls != [] {
      var mid := Next(s, ls[0]).value;
      NeverPendingAgain(s, ls[0], mid, j);
      NextProvision(s, ls[0], mid);
      StaysOut(mid, ls[1..], s', j);
    }
  }

  lemma {:induction false} ClaimsAhead(s: State, ls: seq<Label>, s': State, j: int)
    requires ProvisionInv(s)
    requires Run(s, ls) == Some(s')
    requires Pending(s.db, j) && Pending(s'.db, j)
    ensures Claims(ls) <= |Ahead(s.db, j)|
    decreases |ls|
  {
    if ls != [] {
      var mid := Next(s, ls[0]).value;
      NextProvision(s, ls[0], mid);
      NeverPendingAgain(s, ls[0], mid, j);
      if !Pending(mid.db, j) {
        StaysOut(mid, ls[1..], s', j);
      }
      AheadShrinks(s, ls[0], mid, j);
      ClaimsAhead(mid, ls[1..], s', j);
    }
  }

  /** Fairness: however many workers there are and whatever is ordered meanwhile, a run in
      which job j stays pending contains at most j - 1 claims. */
  lemma PendingJobWaits(s: State, ls: seq<Label>, s': State, j: int)
    requires Reachable(s) && Run(s, ls) == Some(s')
    requires Pending(s.db, j) && Pending(s'.db, j)
    ensures Claims(ls) <= j - 1
  {
    ReachableProvision(s);
    ClaimsAhead(s, ls, s', j);
    assert Issued(s.seqs, JobAt(j));
    BelowSize(j);
    SubsetSize(Ahead(s.db, j), Below(j));
  }

  lemma AddedToBoth(p: set<int>, q: set<int>, a: set<int>, b: set<int>)
    requires p <= a <= b && q == p + (b - a)
    ensures |q| - |b| == |p| - |a|
  {
  }

  lemma GrowthCount(t: Tables, u: Tables)
    requires QueueGrows(t, u)
    ensures |PendingJobs(u)| - |AllJobs(u)| == |PendingJobs(t)| - |AllJobs(t)|
  {
    var p, q, a, b := PendingJobs(t), PendingJobs(u), AllJobs(t), AllJobs(u);
    forall j
      ensures j in q <==> j in p || (j in b && j !in a)
    {
      assert HasJob(u, j) || !HasJob(t, j);
    }
    AddedToBoth(p, q, a, b);
  }

  /** One step's effect on the count of pending jobs. */
  lemma CountStep(s: State, l: Label, s': State)
    requires ProvisionInv(s)
    requires Next(s, l) == Some(s')
    ensures |PendingJobs(s'.db)| + (if l.Claim? then 1 else 0) - |AllJobs(s'.db)| ==
            |PendingJobs(s.db)| - |AllJobs(s.db)|
  {
    if l.Claim? {
      ClaimTakesLeast(s, s', l.tid);
    } else {
      OthersGrow(s, l, s');
      GrowthCount(s.db, s'.db);
    }
  }

  lemma {:induction false} CountRun(s: State, ls: seq<Label>, s': State)
    requires ProvisionInv(s)
    requires Run(s, ls) == Some(s')
    ensures |PendingJobs(s'.db)| + Claims(ls) - |AllJobs(s'.db)| == |PendingJobs(s.db)| - |AllJobs(s.db)|
    decreases |ls|
  {
    if ls != [] {
      var mid := Next(s, ls[0]).value;
      NextProvision(s, ls[0], mid);
      CountStep(s, ls[0], mid);
      CountRun(mid, ls[1..], s');
    }
  }

  /** Conservation of the queue over any run: pending jobs plus claims equals the pending jobs
      at the start plus the jobs enqueued. */
  lemma QueueConserved(s: State, ls: seq<Label>, s': State)
    requires Reachable(s) && Run(s, ls) == Some(s')
    ensures |PendingJobs(s'.db)| + Claims(ls) == |PendingJobs(s.db)| + (|AllJobs(s'.db)| - |AllJobs(s.db)|)
  {
    ReachableProvision(s);
    CountRun(s, ls, s');
  }

  /** Drain: with no new job, as many claims as there were pending jobs empty the queue, and
      until then another claim is possible. */
  lemma QueueDrains(s: State, ls: seq<Label>, s': State, tid: int)
    requires Reachable(s) && Run(s, ls) == Some(s')
    requires AllJobs(s'.db) == AllJobs(s.db)
    requires Unused(s', tid)
    ensures Claims(ls) <= |PendingJobs(s.db)|
    ensures Claims(ls) == |PendingJobs(s.db)| ==> PendingJobs(s'.db) == {}
    ensures Claims(ls) < |PendingJobs(s.db)| ==> Next(s', Claim(tid)).Some?
  {
    QueueConserved(s, ls, s');
    if Claims(ls) < |PendingJobs(s.db)| {
      ReachableProvision(s);
      RunProvision(s, ls, s');
      ClaimPossible(s', tid);
    }
  }

  /** The job a step claims. */
  ghost function ClaimedBy(s: State, l: Label): Option<int> {
    if l.Claim? && PendingJobs(s.db) != {} then Some(Least(PendingJobs(s.db))) else None
  }

  ghost function ClaimsOf(s: State, ls: seq<Label>, j: int): nat
    decreases |ls|
  {
    if ls == [] || Next(s, ls[0]).None? then 0
    else (if ClaimedBy(s, ls[0]) == Some(j) then 1 else 0) + ClaimsOf(Next(s, ls[0]).value, ls[1..], j)
  }

  lemma {:induction false} NoClaimAgain(s: State, ls: seq<Label>, s': State, j: int)
    requires ProvisionInv(s)
    requires Run(s, ls) == Some(s')
    requires HasJob(s.db, j) && !Pending(s.db, j)
    ensures ClaimsOf(s, ls, j) == 0
    decreases |ls|
  {
    if ls != [] {
      var mid := Next(s, ls[0]).value;
      NeverPendingAgain(s, ls[0], mid, j);
      NextProvision(s, ls[0], mid);
      NoClaimAgain(mid, ls[1..], s', j);
    }
  }

  lemma {:induction false} ClaimedOnceFrom(s: State, ls: seq<Label>, s': State, j: int)
    requires ProvisionInv(s)
    requires Run(s, ls) == Some(s')
    ensures ClaimsOf(s, ls, j) <= 1
    decreases |ls|
  {
    if ls != [] {
      var mid := Next(s, ls[0]).value;
      NextProvision(s, ls[0], mid);
      if ClaimedBy(s, ls[0]) == Some(j) {
        ClaimTakesLeast(s, mid, ls[0].tid);
        assert j in PendingJobs(s.db) && j in AllJobs(s.db) && j in AllJobs(mid.db) && j !in PendingJobs(mid.db);
        NoClaimAgain(mid, ls[1..], s', j);
      } else {
        ClaimedOnceFrom(mid, ls[1..], s', j);
      }
    }
  }

  /** In any run, with any number of workers, each job is claimed at most once. */
  lemma ClaimedAtMostOnce(ls: seq<Label>, s': State, j: int)
    requires Run(INITIAL, ls) == Some(s')
    ensures ClaimsOf(INITIAL, ls, j) <= 1
  {
    InitialCore();
    ClaimedOnceFrom(INITIAL, ls, s', j);
  }
}
