/** Jobs, workers and the services they make: each order has exactly one job, each job is
    worked on by at most one worker, and an order is linked to a service at most once. */
module Provisioning {
  import opened Schema
  import opened Repository
  import opened Calls
  import opened Isolation
  import opened Local
  import opened Engine
  import opened CoreInvariant
  import opened CoreSteps
  import opened Effects
  import W = Workers
  import Ordering

  /** Jobs and orders are in bijection. */
  ghost predicate JobsMatch(t: Tables) {
    && (forall j :: HasJob(t, j) ==>
          && HasOrder(t, JobIn(t, j).orderId)
          && OrderIn(t, JobIn(t, j).orderId).vendorId == JobIn(t, j).vendorId)
    && (forall j, k :: HasJob(t, j) && HasJob(t, k) && JobIn(t, j).orderId == JobIn(t, k).orderId ==> j == k)
    && (forall o :: HasOrder(t, o) ==> exists j :: HasJob(t, j) && JobIn(t, j).orderId == o)
  }

  function LinkOf(t: Tables, o: int): Option<int>
    requires HasOrder(t, o)
  {
    OrderIn(t, o).serviceId
  }

  /** What a job's row says about its order's link and its own history; `lost` is whether its
      worker never heard that the commit of the link succeeded. */
  ghost predicate RowSound(r: Job, link: Option<int>, lost: bool) {
    && !r.dead
    && (r.status.JobDone? ==> link.Some?)
    && (r.status.JobPending? ==> link.None?)
    && (r.status.JobFailed? ==> (link.Some? <==> lost))
    && (lost ==> link.Some? && (r.status.JobProvisioning? || r.status.JobFailed?))
    && (if r.status.JobFailed? then r.retries == 1 else r.retries == 0)
  }

  ghost predicate JobSound(t: Tables, lost: set<int>, j: int)
    requires HasJob(t, j) && HasOrder(t, JobIn(t, j).orderId)
  {
    RowSound(JobIn(t, j), LinkOf(t, JobIn(t, j).orderId), j in lost)
  }

  /** The service a linked order points to was made for it, from its own catalog item. */
  ghost predicate LinkSound(t: Tables, o: int)
    requires HasOrder(t, o)
  {
    var r := OrderIn(t, o);
    r.serviceId.Some? ==>
      && HasService(t, r.serviceId.value)
      && HasItem(t, r.catalogId)
      && var v := ServiceIn(t, r.serviceId.value);
         var it := ItemIn(t, r.catalogId);
         && v.orderId == Some(o) && v.userId == r.userId && v.vendorId == r.vendorId
         && v.protocol == it.protocol && v.trafficGb == it.trafficGb && v.days == it.days
  }

  ghost predicate JobsSound(t: Tables, lost: set<int>) {
    && (forall j :: j in lost ==> HasJob(t, j))
    && forall j :: HasJob(t, j) ==> HasOrder(t, JobIn(t, j).orderId) && JobSound(t, lost, j)
  }

  ghost predicate LinksSound(t: Tables) {
    forall o :: HasOrder(t, o) ==> LinkSound(t, o)
  }

  ghost predicate Jobs(t: Tables, lost: set<int>) {
    JobsMatch(t) && JobsSound(t, lost) && LinksSound(t)
  }

  /** A worker's job is in progress, and its order is linked only once the worker has
      committed the link, or has failed after a commit it did not hear of. */
  ghost predicate WorkerSound(t: Tables, lost: set<int>, w: W.Worker) {
    && HasJob(t, w.job) && JobIn(t, w.job).status.JobProvisioning? && JobIn(t, w.job).orderId == w.order
    && HasOrder(t, w.order)
    && (w.job in lost ==> w.stage.Erred? || w.stage.Counted?)
    && (if w.stage.Persisted? then LinkOf(t, w.order) == Some(w.svc) else w.job in lost || LinkOf(t, w.order).None?)
    && (w.stage.Counted? ==> !w.dead)
  }

  ghost predicate WorkersSound(s: State) {
    && (forall tid :: tid in s.procs && s.procs[tid].Working? ==> WorkerSound(s.db, s.lost, s.procs[tid].worker))
    && (forall a, b :: a in s.procs && b in s.procs && a != b && s.procs[a].Working? && s.procs[b].Working? ==>
          s.procs[a].worker.job != s.procs[b].worker.job)
  }

  ghost predicate ProvisionInv(s: State) {
    Core(s) && Jobs(s.db, s.lost) && WorkersSound(s)
  }

  /** Jobs and order links are the same in both. */
  ghost predicate SameJobs(t: Tables, u: Tables) {
    && (forall j :: (HasJob(u, j) <==> HasJob(t, j)) && (HasJob(t, j) ==> JobIn(u, j) == JobIn(t, j)))
    && (forall o :: (HasOrder(u, o) <==> HasOrder(t, o)) && (HasOrder(t, o) ==> OrderIn(u, o) == OrderIn(t, o)))
  }

  lemma LinkSoundStays(t: Tables, u: Tables, o: int)
    requires Preserves(t, u, {})
    requires HasOrder(t, o) && HasOrder(u, o) && OrderIn(u, o) == OrderIn(t, o)
    requires LinkSound(t, o)
    ensures LinkSound(u, o)
  {
  }

  lemma QuietJobs(t: Tables, u: Tables, lost: set<int>)
    requires Preserves(t, u, {}) && SameJobs(t, u) && Jobs(t, lost)
    ensures Jobs(u, lost)
  {
  }

  lemma QuietWorkers(s: State, s': State)
    requires WorkersSound(s) && SameJobs(s.db, s'.db) && s'.lost == s.lost
    requires forall tid :: tid in s'.procs && s'.procs[tid].Working? ==> tid in s.procs && s'.procs[tid] == s.procs[tid]
    ensures WorkersSound(s')
  {
  }

  /** A purchase adds one order and one pending job for it. */
  lemma PurchaseJobs(t: Tables, u: Tables, p: Buyer, lost: set<int>)
    requires Preserves(t, u, {}) && Buys(t, u, p) && Jobs(t, lost)
    ensures Jobs(u, lost)
  {
    OldRows(t, u, p);
    forall o | HasOrder(u, o)
      ensures LinkSound(u, o)
      ensures exists j :: HasJob(u, j) && JobIn(u, j).orderId == o
    {
      if o == p.ids.order {
        assert HasJob(u, p.ids.job);
      } else {
        LinkSoundStays(t, u, o);
        var j :| HasJob(t, j) && JobIn(t, j).orderId == o;
        assert HasJob(u, j);
      }
    }
    forall j | HasJob(u, j)
      ensures HasOrder(u, JobIn(u, j).orderId) && JobSound(u, lost, j)
      ensures OrderIn(u, JobIn(u, j).orderId).vendorId == JobIn(u, j).vendorId
      ensures j != p.ids.job ==> HasJob(t, j) && JobIn(u, j).orderId != p.ids.order
    {
      if j != p.ids.job {
        assert JobSound(t, lost, j);
      }
    }
  }

  lemma OldRows(t: Tables, u: Tables, p: Buyer)
    requires Buys(t, u, p)
    ensures forall j :: j != p.ids.job ==>
            (HasJob(u, j) <==> HasJob(t, j)) && (HasJob(t, j) ==> JobIn(u, j) == JobIn(t, j))
    ensures forall o :: o != p.ids.order ==>
            (HasOrder(u, o) <==> HasOrder(t, o)) && (HasOrder(t, o) ==> OrderIn(u, o) == OrderIn(t, o))
    ensures !HasJob(t, p.ids.job) && !HasOrder(t, p.ids.order)
  {
  }

  lemma PurchaseWorkers(s: State, s': State, p: Buyer)
    requires WorkersSound(s) && Buys(s.db, s'.db, p) && s'.lost == s.lost
    requires forall tid :: tid in s'.procs && s'.procs[tid].Working? ==> tid in s.procs && s'.procs[tid] == s.procs[tid]
    ensures WorkersSound(s')
  {
    OldRows(s.db, s'.db, p);
    forall tid | tid in s'.procs && s'.procs[tid].Working?
      ensures WorkerSound(s'.db, s'.lost, s'.procs[tid].worker)
    {
      assert WorkerSound(s.db, s.lost, s.procs[tid].worker);
    }
  }

  lemma DepositSameJobs(t: Tables, u: Tables, p: Buyer)
    requires Deposits(t, u, p)
    ensures SameJobs(t, u)
  {
  }

  lemma AdvanceKeepsWorkers(s: State, s': State, tid: int, p: Buyer, heard: bool)
    requires tid in s.procs && s.procs[tid] == Buying(p)
    requires AdvanceBuyer(s, tid, p, heard) == Some(s')
    ensures s'.lost == s.lost
    ensures forall t :: t in s'.procs && s'.procs[t].Working? ==> t in s.procs && s'.procs[t] == s.procs[t]
  {
  }

  lemma AdvanceJobs(s: State, s': State, tid: int, p: Buyer)
    requires ProvisionInv(s) && tid in s.procs && s.procs[tid] == Buying(p)
    requires s'.db == s.db || Buys(s.db, s'.db, p) || Deposits(s.db, s'.db, p)
    requires forall t :: t in s'.procs && s'.procs[t].Working? ==> t in s.procs && s'.procs[t] == s.procs[t]
    requires Preserves(s.db, s'.db, {}) && s'.lost == s.lost
    ensures Jobs(s'.db, s'.lost) && WorkersSound(s')
  {
    if Buys(s.db, s'.db, p) {
      PurchaseJobs(s.db, s'.db, p, s.lost);
      PurchaseWorkers(s, s', p);
    } else {
      if Deposits(s.db, s'.db, p) {
        DepositSameJobs(s.db, s'.db, p);
      }
      QuietJobs(s.db, s'.db, s.lost);
      QuietWorkers(s, s');
    }
  }

  /** `u` is `t` but for job `j`'s row, which keeps its vendor and order. */
  ghost predicate ChangesJob(t: Tables, u: Tables, j: int, row: Job) {
    && HasJob(t, j) && row.orderId == JobIn(t, j).orderId && row.vendorId == JobIn(t, j).vendorId
    && (forall k :: HasJob(u, k) <==> HasJob(t, k))
    && (forall k :: HasJob(t, k) && k != j ==> JobIn(u, k) == JobIn(t, k))
    && JobIn(u, j) == row
    && (forall o :: (HasOrder(u, o) <==> HasOrder(t, o)) && (HasOrder(t, o) ==> OrderIn(u, o) == OrderIn(t, o)))
  }

  lemma JobWrite(t: Tables, u: Tables, j: int, row: Job)
    requires u == t + map[JobAt(j) := JobRow(row)]
    requires HasJob(t, j) && row.orderId == JobIn(t, j).orderId && row.vendorId == JobIn(t, j).vendorId
    ensures ChangesJob(t, u, j, row)
  {
  }

  lemma JobChangeMatches(t: Tables, u: Tables, j: int, row: Job)
    requires JobsMatch(t) && ChangesJob(t, u, j, row)
    ensures JobsMatch(u)
  {
    forall k | HasJob(u, k)
      ensures JobIn(u, k).orderId == JobIn(t, k).orderId && JobIn(u, k).vendorId == JobIn(t, k).vendorId
    {
    }
    forall o | HasOrder(u, o)
      ensures exists k :: HasJob(u, k) && JobIn(u, k).orderId == o
    {
      var k :| HasJob(t, k) && JobIn(t, k).orderId == o;
      assert HasJob(u, k);
    }
  }

  lemma JobChangeSound(t: Tables, u: Tables, j: int, row: Job, lost: set<int>)
    requires JobsSound(t, lost) && ChangesJob(t, u, j, row)
    requires HasOrder(t, row.orderId)
    requires RowSound(row, LinkOf(t, row.orderId), j in lost)
    ensures JobsSound(u, lost)
  {
  }

  lemma JobChange(t: Tables, u: Tables, j: int, row: Job, lost: set<int>)
    requires Preserves(t, u, {}) && Jobs(t, lost) && ChangesJob(t, u, j, row)
    requires HasOrder(t, row.orderId)
    requires RowSound(row, LinkOf(t, row.orderId), j in lost)
    ensures Jobs(u, lost)
  {
    JobChangeMatches(t, u, j, row);
    JobChangeSound(t, u, j, row, lost);
    SameLinks(t, u);
  }

  lemma SameLinks(t: Tables, u: Tables)
    requires Preserves(t, u, {}) && LinksSound(t)
    requires forall o :: (HasOrder(u, o) <==> HasOrder(t, o)) && (HasOrder(t, o) ==> OrderIn(u, o) == OrderIn(t, o))
    ensures LinksSound(u)
  {
  }

  /** Workers on other jobs do not notice. */
  lemma OtherWorkers(s: State, s': State, tid: int, j: int, row: Job)
    requires WorkersSound(s) && ChangesJob(s.db, s'.db, j, row) && s'.lost == s.lost
    requires forall t :: t in s'.procs && t != tid ==> t in s.procs && s'.procs[t] == s.procs[t]
    requires forall t :: t in s.procs && t != tid && s.procs[t].Working? ==> s.procs[t].worker.job != j
    requires tid in s'.procs && s'.procs[tid].Working? ==>
               s'.procs[tid].worker.job == j && WorkerSound(s'.db, s'.lost, s'.procs[tid].worker)
    ensures WorkersSound(s')
  {
  }

  lemma ClaimedRow(t: Tables, u: Tables, j: int, lost: set<int>)
    requires Preserves(t, u, {}) && Jobs(t, lost) && HasJob(t, j) && JobIn(t, j).status.JobPending?
    requires u == t + map[JobAt(j) := JobRow(JobIn(t, j).(status := JobProvisioning))]
    ensures Jobs(u, lost) && ChangesJob(t, u, j, JobIn(t, j).(status := JobProvisioning))
    ensures HasOrder(t, JobIn(t, j).orderId) && LinkOf(t, JobIn(t, j).orderId).None?
  {
    var row := JobIn(t, j).(status := JobProvisioning);
    assert JobSound(t, lost, j);
    JobWrite(t, u, j, row);
    JobChange(t, u, j, row, lost);
  }

  lemma PendingUnworked(s: State, j: int)
    requires WorkersSound(s) && HasJob(s.db, j) && JobIn(s.db, j).status.JobPending?
    ensures forall t :: t in s.procs && s.procs[t].Working? ==> s.procs[t].worker.job != j
  {
  }

  lemma ClaimJobs(s: State, s': State, tid: int)
    requires ProvisionInv(s) && ClaimNext(s, tid) == Some(s') && Preserves(s.db, s'.db, {})
    ensures Jobs(s'.db, s'.lost) && WorkersSound(s')
  {
    var j := Least(W.Claimable(s.db, Locked(s.procs, {})));
    ClaimedRow(s.db, s'.db, j, s.lost);
    PendingUnworked(s, j);
    OtherWorkers(s, s', tid, j, JobIn(s.db, j).(status := JobProvisioning));
  }

  /** The worker goes on without touching the tables. */
  lemma OnwardSound(t: Tables, newService: int, answer: Option<int>, w: W.Worker, next: W.Worker, lost: set<int>)
    requires WorkerSound(t, lost, w) && Jobs(t, lost)
    requires W.WorkStatement(t, newService, answer, w) == W.Onward(next) || W.WorkFault(w) == Some(next)
    requires !w.stage.Persisted?
    ensures WorkerSound(t, lost, next) && next.job == w.job
  {
  }

  lemma ReplaceWorker(s: State, s': State, tid: int, next: W.Worker)
    requires WorkersSound(s) && tid in s.procs && s.procs[tid].Working? && next.job == s.procs[tid].worker.job
    requires s'.db == s.db && s'.procs == s.procs[tid := Working(next)] && s'.lost == s.lost
    requires WorkerSound(s.db, s.lost, next)
    ensures WorkersSound(s')
  {
  }

  lemma FinishJobs(s: State, s': State, tid: int, w: W.Worker, answer: Option<int>, writes: Tables)
    requires ProvisionInv(s) && tid in s.procs && s.procs[tid] == Working(w)
    requires W.WorkStatement(s.db, s.seqs.service, answer, w) == W.Finished(writes)
    requires s'.db == s.db + writes && s'.procs == s.procs - {tid} && s'.lost == s.lost
    requires Preserves(s.db, s'.db, {})
    ensures Jobs(s'.db, s'.lost) && WorkersSound(s')
  {
    assert WorkerSound(s.db, s.lost, w) && JobSound(s.db, s.lost, w.job);
    var row := writes[JobAt(w.job)].job;
    JobWrite(s.db, s'.db, w.job, row);
    JobChange(s.db, s'.db, w.job, row, s.lost);
    OtherWorkers(s, s', tid, w.job, row);
  }

  /** The commit that inserts the service and links the order. */
  lemma LinkJobs(t: Tables, u: Tables, w: W.Worker, lost: set<int>, lost': set<int>)
    requires WorkerInv(t, w) && w.stage.Joined? && u == t + w.writes
    requires Preserves(t, u, {}) && Jobs(t, lost) && WorkerSound(t, lost, w)
    requires lost <= lost' <= lost + {w.job}
    ensures Jobs(u, lost')
    ensures forall j :: (HasJob(u, j) <==> HasJob(t, j)) && (HasJob(t, j) ==> JobIn(u, j) == JobIn(t, j))
    ensures forall o :: o != w.order ==>
            (HasOrder(u, o) <==> HasOrder(t, o)) && (HasOrder(t, o) ==> OrderIn(u, o) == OrderIn(t, o))
    ensures HasOrder(u, w.order) && OrderIn(u, w.order) == OrderIn(t, w.order).(serviceId := Some(w.svc))
  {
    assert forall j :: (HasJob(u, j) <==> HasJob(t, j)) && (HasJob(t, j) ==> JobIn(u, j) == JobIn(t, j));
    assert forall o :: o != w.order ==>
           (HasOrder(u, o) <==> HasOrder(t, o)) && (HasOrder(t, o) ==> OrderIn(u, o) == OrderIn(t, o));
    forall o | HasOrder(u, o)
      ensures LinkSound(u, o)
      ensures exists j :: HasJob(u, j) && JobIn(u, j).orderId == o
    {
      if o != w.order {
        LinkSoundStays(t, u, o);
      } else {
        assert ItemAt(w.catalog) in u && SameCore(t[ItemAt(w.catalog)], u[ItemAt(w.catalog)]);
      }
      var j :| HasJob(t, j) && JobIn(t, j).orderId == o;
      assert HasJob(u, j);
    }
    forall j | HasJob(u, j)
      ensures HasOrder(u, JobIn(u, j).orderId) && JobSound(u, lost', j)
    {
      assert JobSound(t, lost, j);
    }
  }

  lemma DurableJobs(s: State, s': State, tid: int, w: W.Worker, next: W.Worker)
    requires ProvisionInv(s) && tid in s.procs && s.procs[tid] == Working(w) && w.stage.Joined?
    requires if s'.lost == s.lost then next == w.(stage := W.Persisted, writes := map[], locks := {})
             else s'.lost == s.lost + {w.job} && next == W.Abandon(w)
    requires s'.db == s.db + w.writes && s'.procs == s.procs[tid := Working(next)] && Preserves(s.db, s'.db, {})
    ensures Jobs(s'.db, s'.lost) && WorkersSound(s')
  {
    assert ProcInv(s.db, s.procs[tid]);
    LinkJobs(s.db, s'.db, w, s.lost, s'.lost);
    forall t | t in s'.procs && s'.procs[t].Working?
      ensures WorkerSound(s'.db, s'.lost, s'.procs[t].worker)
    {
      if t != tid {
        var x := s.procs[t].worker;
        assert WorkerSound(s.db, s.lost, x);
        assert x.order != w.order;
      }
    }
  }

  lemma WorkJobs(s: State, s': State, tid: int, w: W.Worker, answer: Option<int>, heard: bool)
    requires ProvisionInv(s) && tid in s.procs && s.procs[tid] == Working(w)
    requires AdvanceWorker(s, tid, w, answer, heard) == Some(s') && Preserves(s.db, s'.db, {})
    ensures Jobs(s'.db, s'.lost) && WorkersSound(s')
  {
    assert WorkerSound(s.db, s.lost, w);
    var out := W.WorkStatement(s.db, s.seqs.service, answer, w);
    match out
    case Onward(next) =>
      OnwardSound(s.db, s.seqs.service, answer, w, next, s.lost);
      ReplaceWorker(s, s', tid, next);
    case Durable(_) => DurableJobs(s, s', tid, w, s'.procs[tid].worker);
    case Finished(writes) => FinishJobs(s, s', tid, w, answer, writes);
  }

  lemma DisruptJobs(s: State, s': State, tid: int)
    requires ProvisionInv(s) && Interrupt(s, tid) == Some(s')
    ensures Jobs(s'.db, s'.lost) && WorkersSound(s')
  {
    if s.procs[tid].Working? && W.WorkFault(s.procs[tid].worker).Some? {
      var w := s.procs[tid].worker;
      assert WorkerSound(s.db, s.lost, w);
      OnwardSound(s.db, 0, None, w, W.WorkFault(w).value, s.lost);
      ReplaceWorker(s, s', tid, W.WorkFault(w).value);
    }
  }

  /** The other labels: no job and no order link changes, and no worker starts or moves. */
  lemma QuietLabel(s: State, l: Label, s': State)
    requires Core(s)
    requires Next(s, l) == Some(s')
    requires !l.Advance? && !l.Claim? && !l.Work? && !l.Disrupt?
    ensures SameJobs(s.db, s'.db)
    ensures s'.lost == s.lost
    ensures forall t :: t in s'.procs && s'.procs[t].Working? ==> t in s.procs && s'.procs[t] == s.procs[t]
  {
    QuietWorkersStay(s, l, s');
    match l
    case Sweep(at) => SweepSameJobs(s, s', at);
    case PanelReply(tid, ok) =>
      StatusSameJobs(s, s', tid, s.procs[tid].vendor, s.procs[tid].svc, if ok then Active else ProvisionFailed);
    case SetStatus(tid) => StatusSameJobs(s, s', tid, s.procs[tid].vendor, s.procs[tid].svc, s.procs[tid].target);
    case _ => QuietInsert(s, l, s');
  }

  lemma QuietInsert(s: State, l: Label, s': State)
    requires Next(s, l) == Some(s')
    requires !l.Advance? && !l.Claim? && !l.Work? && !l.Disrupt? && !l.Sweep? && !l.PanelReply? && !l.SetStatus?
    ensures SameJobs(s.db, s'.db)
  {
    match l
    case Register(tid, email) => OverlaySameJobs(s.db, map[UserAt(s.seqs.user) := UserRow(email)]);
    case EnsureWallet(tid) =>
      OverlaySameJobs(s.db, map[WalletAt(s.seqs.wallet) := WalletRow(Wallet(s.procs[tid].userId, 0))]);
    case AddItem(item) => OverlaySameJobs(s.db, map[ItemAt(s.seqs.item) := ItemRow(item)]);
    case AddPanel(panel) => OverlaySameJobs(s.db, map[PanelAt(s.seqs.panel) := PanelRow(panel)]);
    case Provision(tid, v, u, order, protocol, traffic, days) =>
      var row := Service(v, u, order, protocol, Provisioning, Some(s.clock + days * DAY), traffic, days);
      OverlaySameJobs(s.db, map[ServiceAt(s.seqs.service) := ServiceRow(row)]);
    case _ =>
  }

  lemma QuietWorkersStay(s: State, l: Label, s': State)
    requires Next(s, l) == Some(s')
    requires !l.Advance? && !l.Claim? && !l.Work? && !l.Disrupt?
    ensures s'.lost == s.lost
    ensures forall t :: t in s'.procs && s'.procs[t].Working? ==> t in s.procs && s'.procs[t] == s.procs[t]
  {
  }

  lemma OverlaySameJobs(t: Tables, w: Tables)
    requires forall a :: a in w ==> !a.JobAt? && !a.OrderAt?
    ensures SameJobs(t, t + w)
  {
  }

  lemma SweepSameJobs(s: State, s': State, at: int)
    requires SweepExpired(s, at) == Some(s')
    ensures SameJobs(s.db, s'.db)
  {
  }

  lemma StatusSameJobs(s: State, s': State, tid: int, v: int, sid: int, status: ServiceStatus)
    requires UpdateStatus(s, tid, v, sid, status) == Some(s')
    ensures SameJobs(s.db, s'.db)
  {
  }

  lemma AdvanceProvision(s: State, s': State, tid: int, p: Buyer, heard: bool)
    requires ProvisionInv(s) && tid in s.procs && s.procs[tid] == Buying(p)
    requires AdvanceBuyer(s, tid, p, heard) == Some(s') && Preserves(s.db, s'.db, {})
    ensures Jobs(s'.db, s'.lost) && WorkersSound(s')
  {
    AdvanceEffect(s, s', tid, p, heard);
    AdvanceKeepsWorkers(s, s', tid, p, heard);
    AdvanceJobs(s, s', tid, p);
  }

  lemma QuietProvision(s: State, l: Label, s': State)
    requires ProvisionInv(s) && Next(s, l) == Some(s') && Preserves(s.db, s'.db, {})
    requires !l.Advance? && !l.Claim? && !l.Work? && !l.Disrupt?
    ensures Jobs(s'.db, s'.lost) && WorkersSound(s')
  {
    QuietLabel(s, l, s');
    QuietJobs(s.db, s'.db, s.lost);
    QuietWorkers(s, s');
  }

  lemma NextProvision(s: State, l: Label, s': State)
    requires ProvisionInv(s)
    requires Next(s, l) == Some(s')
    ensures ProvisionInv(s') && Preserves(s.db, s'.db, {})
  {
    NextKeepsCore(s, l, s');
    Ordering.PreservesLess(s.db, s'.db, Locked(s.procs, Actor(l)));
    match l
    case Advance(tid, heard) => AdvanceProvision(s, s', tid, s.procs[tid].buyer, heard);
    case Claim(tid) => ClaimJobs(s, s', tid);
    case Work(tid, answer, heard) => WorkJobs(s, s', tid, s.procs[tid].worker, answer, heard);
    case Disrupt(tid) => DisruptJobs(s, s', tid);
    case _ => QuietProvision(s, l, s');
  }

  lemma {:induction false} RunProvision(s: State, ls: seq<Label>, s': State)
    requires ProvisionInv(s)
    requires Run(s, ls) == Some(s')
    ensures ProvisionInv(s')
    decreases |ls|
  {
    if ls != [] {
      var mid := Next(s, ls[0]).value;
      NextProvision(s, ls[0], mid);
      RunProvision(mid, ls[1..], s');
    }
  }

  lemma ReachableProvision(s: State)
    requires Reachable(s)
    ensures ProvisionInv(s)
  {
    var ls :| Run(INITIAL, ls) == Some(s);
    InitialCore();
    RunProvision(INITIAL, ls, s);
  }

  /** In every reachable state each order has exactly one job, of its own vendor. */
  lemma OneJobPerOrder(s: State, o: int)
    requires Reachable(s) && HasOrder(s.db, o)
    ensures exists j ::
              HasJob(s.db, j) && JobIn(s.db, j).orderId == o && JobIn(s.db, j).vendorId == OrderIn(s.db, o).vendorId
    ensures forall j, k ::
              HasJob(s.db, j) && HasJob(s.db, k) && JobIn(s.db, j).orderId == o && JobIn(s.db, k).orderId == o ==>
                j == k
  {
    ReachableProvision(s);
    var j :| HasJob(s.db, j) && JobIn(s.db, j).orderId == o;
  }

  /** A done job's order is linked to a service made for it, for its user and vendor, with its
      catalog item's protocol, traffic and duration; a pending job's order has no link, and a
      failed job's order has one exactly when its worker never heard that the commit of the
      link succeeded. No job is ever retried into the dead letter state. */
  lemma JobTellsLink(s: State, j: int)
    requires Reachable(s) && HasJob(s.db, j)
    ensures HasOrder(s.db, JobIn(s.db, j).orderId)
    ensures var r := JobIn(s.db, j);
            var link := LinkOf(s.db, r.orderId);
            && (r.status.JobDone? ==> link.Some?)
            && (r.status.JobPending? ==> link.None?)
            && (r.status.JobFailed? ==> (link.Some? <==> j in s.lost))
            && LinkSound(s.db, r.orderId)
            && r.retries <= 1 && !r.dead
  {
    ReachableProvision(s);
    assert JobSound(s.db, s.lost, j);
  }

  /** The job whose commit goes unheard in a step. */
  function Unheard(s: State, l: Label): set<int> {
    if l.Work? && !l.heard && l.tid in s.procs && s.procs[l.tid].Working? then {s.procs[l.tid].worker.job} else {}
  }

  function UnheardJobs(s: State, ls: seq<Label>): set<int>
    decreases |ls|
  {
    if ls == [] || Next(s, ls[0]).None? then {}
    else Unheard(s, ls[0]) + UnheardJobs(Next(s, ls[0]).value, ls[1..])
  }

  lemma NextLoses(s: State, l: Label, s': State)
    requires Next(s, l) == Some(s')
    ensures s'.lost == s.lost + Unheard(s, l)
  {
  }

  lemma {:induction false} RunLoses(s: State, ls: seq<Label>, s': State)
    requires Run(s, ls) == Some(s')
    ensures s'.lost == s.lost + UnheardJobs(s, ls)
    decreases |ls|
  {
    if ls != [] {
      NextLoses(s, ls[0], Next(s, ls[0]).value);
      RunLoses(Next(s, ls[0]).value, ls[1..], s');
    }
  }

  lemma {:induction false} HeardLosesNothing(s: State, ls: seq<Label>)
    requires forall l :: l in ls && l.Work? ==> l.heard
    ensures UnheardJobs(s, ls) == {}
    decreases |ls|
  {
    if ls != [] && Next(s, ls[0]).Some? {
      HeardLosesNothing(Next(s, ls[0]).value, ls[1..]);
    }
  }

  /** In any run, a failed job's order is linked if and only if the commit of its worker went
      unheard. */
  lemma FailedLinkedIff(ls: seq<Label>, s: State, j: int)
    requires Run(INITIAL, ls) == Some(s)
    requires HasJob(s.db, j) && JobIn(s.db, j).status.JobFailed?
    ensures HasOrder(s.db, JobIn(s.db, j).orderId)
    ensures LinkOf(s.db, JobIn(s.db, j).orderId).Some? <==> j in UnheardJobs(INITIAL, ls)
  {
    RunLoses(INITIAL, ls, s);
    JobTellsLink(s, j);
  }

  /** In a run in which every worker hears of its commits, a failed job's order has no link. */
  lemma FailedUnlinked(ls: seq<Label>, s: State, j: int)
    requires Run(INITIAL, ls) == Some(s)
    requires forall l :: l in ls && l.Work? ==> l.heard
    requires HasJob(s.db, j) && JobIn(s.db, j).status.JobFailed?
    ensures HasOrder(s.db, JobIn(s.db, j).orderId) && LinkOf(s.db, JobIn(s.db, j).orderId).None?
  {
    HeardLosesNothing(INITIAL, ls);
    FailedLinkedIff(ls, s, j);
  }

  /** No two workers handle one job, and the jobs they handle are in progress. */
  lemma WorkersApart(s: State, a: int, b: int)
    requires Reachable(s) && a in s.procs && b in s.procs && a != b
    requires s.procs[a].Working? && s.procs[b].Working?
    ensures s.procs[a].worker.job != s.procs[b].worker.job
    ensures HasJob(s.db, s.procs[a].worker.job) && JobIn(s.db, s.procs[a].worker.job).status.JobProvisioning?
  {
    ReachableProvision(s);
    assert WorkerSound(s.db, s.lost, s.procs[a].worker);
  }

  lemma WorkKeepsLink(s: State, s': State, tid: int, w: W.Worker, answer: Option<int>, heard: bool, o: int)
    requires ProvisionInv(s) && tid in s.procs && s.procs[tid] == Working(w)
    requires AdvanceWorker(s, tid, w, answer, heard) == Some(s') && Preserves(s.db, s'.db, {})
    requires HasOrder(s.db, o) && LinkOf(s.db, o).Some?
    ensures HasOrder(s'.db, o) && LinkOf(s'.db, o) == LinkOf(s.db, o)
  {
    assert WorkerSound(s.db, s.lost, w) && ProcInv(s.db, s.procs[tid]);
    var out := W.WorkStatement(s.db, s.seqs.service, answer, w);
    if out.Durable? {
      LinkJobs(s.db, s'.db, w, s.lost, s'.lost);
    } else if out.Finished? {
      assert OrderAt(o) !in out.writes;
    }
  }

  lemma BuyingKeepsLink(t: Tables, u: Tables, p: Buyer, o: int)
    requires u == t || Buys(t, u, p) || Deposits(t, u, p)
    requires HasOrder(t, o)
    ensures HasOrder(u, o) && LinkOf(u, o) == LinkOf(t, o)
  {
  }

  lemma AdvanceKeepsLink(s: State, s': State, tid: int, p: Buyer, heard: bool, o: int)
    requires Core(s) && tid in s.procs && s.procs[tid] == Buying(p)
    requires AdvanceBuyer(s, tid, p, heard) == Some(s')
    requires HasOrder(s.db, o)
    ensures HasOrder(s'.db, o) && LinkOf(s'.db, o) == LinkOf(s.db, o)
  {
    AdvanceEffect(s, s', tid, p, heard);
    BuyingKeepsLink(s.db, s'.db, p, o);
  }

  lemma NextKeepsLink(s: State, l: Label, s': State, o: int)
    requires ProvisionInv(s)
    requires Next(s, l) == Some(s') && Preserves(s.db, s'.db, {})
    requires HasOrder(s.db, o) && LinkOf(s.db, o).Some?
    ensures HasOrder(s'.db, o) && LinkOf(s'.db, o) == LinkOf(s.db, o)
  {
    match l
    case Advance(tid, heard) => AdvanceKeepsLink(s, s', tid, s.procs[tid].buyer, heard, o);
    case Claim(tid) => ClaimSameOrders(s, s', tid);
    case Work(tid, answer, heard) => WorkKeepsLink(s, s', tid, s.procs[tid].worker, answer, heard, o);
    case Disrupt(tid) => DisruptSameDb(s, s', tid);
    case _ => QuietLabel(s, l, s');
  }

  lemma DisruptSameDb(s: State, s': State, tid: int)
    requires Interrupt(s, tid) == Some(s')
    ensures s'.db == s.db
  {
  }

  lemma ClaimSameOrders(s: State, s': State, tid: int)
    requires ClaimNext(s, tid) == Some(s')
    ensures forall o :: HasOrder(s.db, o) ==> HasOrder(s'.db, o) && OrderIn(s'.db, o) == OrderIn(s.db, o)
  {
  }

  lemma {:induction false} RunKeepsLink(s: State, ls: seq<Label>, s': State, o: int)
    requires ProvisionInv(s)
    requires Run(s, ls) == Some(s')
    requires HasOrder(s.db, o) && LinkOf(s.db, o).Some?
    ensures HasOrder(s'.db, o) && LinkOf(s'.db, o) == LinkOf(s.db, o)
    decreases |ls|
  {
    if ls != [] {
      var mid := Next(s, ls[0]).value;
      NextProvision(s, ls[0], mid);
      NextKeepsLink(s, ls[0], mid, o);
      RunKeepsLink(mid, ls[1..], s', o);
    }
  }

  /** An order's service link is set at most once: whatever runs later, it keeps the service it
      first got. */
  lemma LinkedAtMostOnce(s: State, ls: seq<Label>, s': State, o: int)
    requires Reachable(s) && Run(s, ls) == Some(s')
    requires HasOrder(s.db, o) && LinkOf(s.db, o).Some?
    ensures HasOrder(s'.db, o) && LinkOf(s'.db, o) == LinkOf(s.db, o)
  {
    ReachableProvision(s);
    RunKeepsLink(s, ls, s', o);
  }
}
