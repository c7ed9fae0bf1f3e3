/** One pass of the provisioning worker's loop, with nothing else running: claim a job, handle
    it, and mark the result. */
module JobRunner {
  import opened Schema
  import opened Repository
  import opened Calls
  import opened Store
  import opened Repositories
  import W = Workers

  /** Every fault lies before `w`'s stage, and a later fault makes no difference before it. */
  ghost predicate Upto(faults: set<W.Stage>, all: set<W.Stage>, w: W.Worker) {
    (forall st :: st in faults ==> W.StageRank(st) < W.StageRank(w.stage)) &&
    (forall st :: W.StageRank(st) < W.StageRank(w.stage) ==> (st in all <==> st in faults))
  }

  /** The work begun at `w0` on `t0` has come, with `faults`, to `w` on `t`. */
  ghost predicate Leads(t0: Tables, newService: int, answer: Option<int>, w0: W.Worker,
                        faults: set<W.Stage>, lost: bool, t: Tables, w: W.Worker) {
    && (forall st :: st in faults ==> W.StageRank(st) < W.StageRank(w.stage))
    && (forall all, l :: Upto(faults, all, w) && (W.StageRank(w.stage) > W.StageRank(W.Joined) ==> l == lost) ==>
          W.WorkAlone(t0, newService, answer, w0, all, l) == W.WorkAlone(t, newService, answer, w, all, l))
  }

  lemma LeadOn(t0: Tables, newService: int, answer: Option<int>, w0: W.Worker,
               faults: set<W.Stage>, lost: bool, t: Tables, w: W.Worker, next: W.Worker)
    requires Leads(t0, newService, answer, w0, faults, lost, t, w)
    requires W.WorkStatement(t, newService, answer, w) == W.Onward(next)
    ensures Leads(t0, newService, answer, w0, faults, lost, t, next)
  {
    W.StagesRise(t, newService, answer, w);
    forall all, l | Upto(faults, all, next) && (W.StageRank(next.stage) > W.StageRank(W.Joined) ==> l == lost)
      ensures W.WorkAlone(t0, newService, answer, w0, all, l) == W.WorkAlone(t, newService, answer, next, all, l)
    {
      assert Upto(faults, all, w);
    }
  }

  lemma LeadDurable(t0: Tables, newService: int, answer: Option<int>, w0: W.Worker,
                    faults: set<W.Stage>, lost: bool, t: Tables, w: W.Worker, next: W.Worker)
    requires Leads(t0, newService, answer, w0, faults, lost, t, w)
    requires W.WorkStatement(t, newService, answer, w) == W.Durable(next)
    ensures Leads(t0, newService, answer, w0, faults, lost, t + w.writes, next)
  {
    forall all, l | Upto(faults, all, next) && (W.StageRank(next.stage) > W.StageRank(W.Joined) ==> l == lost)
      ensures W.WorkAlone(t0, newService, answer, w0, all, l) ==
              W.WorkAlone(t + w.writes, newService, answer, next, all, l)
    {
      assert Upto(faults, all, w);
    }
  }

  lemma LeadFault(t0: Tables, newService: int, answer: Option<int>, w0: W.Worker,
                  faults: set<W.Stage>, lost: bool, t: Tables, w: W.Worker)
    requires Leads(t0, newService, answer, w0, faults, lost, t, w)
    requires W.WorkFault(w).Some? && (w.stage.Joined? ==> !lost)
    ensures Leads(t0, newService, answer, w0, faults + {w.stage}, lost, t, W.WorkFault(w).value)
    ensures |faults + {w.stage}| == |faults| + 1
  {
    assert w.stage !in faults;
    W.StagesRise(t, newService, answer, w);
    var next := W.WorkFault(w).value;
    forall all, l |
        Upto(faults + {w.stage}, all, next) && (W.StageRank(next.stage) > W.StageRank(W.Joined) ==> l == lost)
      ensures W.WorkAlone(t0, newService, answer, w0, all, l) == W.WorkAlone(t, newService, answer, next, all, l)
    {
      assert Upto(faults, all, w);
    }
  }

  /** The commit takes effect unheard. */
  lemma LeadLost(t0: Tables, newService: int, answer: Option<int>, w0: W.Worker,
                 faults: set<W.Stage>, t: Tables, w: W.Worker)
    requires Leads(t0, newService, answer, w0, faults, false, t, w) && w.stage.Joined?
    ensures Leads(t0, newService, answer, w0, faults + {w.stage}, true, t + w.writes, W.Abandon(w))
  {
    var next := W.Abandon(w);
    forall all, l |
        Upto(faults + {w.stage}, all, next) && (W.StageRank(next.stage) > W.StageRank(W.Joined) ==> l == true)
      ensures W.WorkAlone(t0, newService, answer, w0, all, l) ==
              W.WorkAlone(t + w.writes, newService, answer, next, all, l)
    {
      assert Upto(faults, all, w);
    }
  }

  /** The last statement, or its failure. */
  lemma LeadEnd(t0: Tables, newService: int, answer: Option<int>, w0: W.Worker,
                faults: set<W.Stage>, lost: bool, t: Tables, w: W.Worker, failed: bool)
    returns (all: set<W.Stage>)
    requires Leads(t0, newService, answer, w0, faults, lost, t, w)
    requires W.WorkStatement(t, newService, answer, w).Finished? && W.WorkFault(w) == None
    ensures W.WorkAlone(t0, newService, answer, w0, all, lost) ==
            if failed then t else t + W.WorkStatement(t, newService, answer, w).writes
    ensures faults <= all && |all| == |faults| + Count(failed)
  {
    assert failed ==> |faults + {w.stage}| == |faults| + 1;
    all := if failed then faults + {w.stage} else faults;
    assert Upto(faults, all, w);
  }

  /** MarkFailed, or its failure. */
  lemma LeadFailed(t0: Tables, newService: int, answer: Option<int>, w0: W.Worker,
                   faults: set<W.Stage>, lost: bool, t: Tables, w: W.Worker, failed: bool)
    returns (all: set<W.Stage>)
    requires Leads(t0, newService, answer, w0, faults, lost, t, w) && w.stage.Counted?
    ensures W.WorkAlone(t0, newService, answer, w0, all, lost) ==
            if failed || !HasJob(t, w.job) then t
            else
              var row := JobIn(t, w.job);
              var marked := row.(status := JobFailed, retries := row.retries + 1, dead := w.dead);
              t + map[JobAt(w.job) := JobRow(marked)]
    ensures faults <= all && |all| == |faults| + Count(failed)
  {
    all := LeadEnd(t0, newService, answer, w0, faults, lost, t, w, failed);
    assert t + map[] == t;
  }

  /** An error return, by the statement's own outcome or because it failed. */
  lemma LeadError(t: Tables, newService: int, answer: Option<int>, w0: W.Worker, w: W.Worker, fault: bool)
    returns (faults: set<W.Stage>)
    requires Leads(t, newService, answer, w0, {}, false, t, w)
    requires W.StageRank(w.stage) < 7
    requires !fault ==> W.WorkStatement(t, newService, answer, w) == W.Onward(W.Abandon(w))
    ensures Leads(t, newService, answer, w0, faults, false, t, W.Abandon(w))
    ensures |faults| == Count(fault)
  {
    if fault {
      LeadFault(t, newService, answer, w0, {}, false, t, w);
      faults := {} + {w.stage};
    } else {
      LeadOn(t, newService, answer, w0, {}, false, t, w, W.Abandon(w));
      faults := {};
    }
  }

  /** The commit's error, heard in place of its acknowledgement or because it failed. */
  lemma LeadUncommitted(t: Tables, newService: int, answer: Option<int>, w0: W.Worker, w: W.Worker, took: bool)
    returns (faults: set<W.Stage>)
    requires Leads(t, newService, answer, w0, {}, false, t, w) && w.stage.Joined?
    ensures Leads(t, newService, answer, w0, faults, took, if took then t + w.writes else t, W.Abandon(w))
    ensures |faults| == 1
  {
    if took {
      LeadLost(t, newService, answer, w0, {}, t, w);
      faults := {} + {w.stage};
    } else {
      faults := LeadError(t, newService, answer, w0, w, true);
    }
  }

  /** The three statements of the worker's transaction that succeed. */
  lemma LeadInsert(t: Tables, n: int, answer: Option<int>, w0: W.Worker, w: W.Worker) returns (next: W.Worker)
    requires Leads(t, n, answer, w0, {}, false, t, w) && w.stage.Answered? && w.writes == map[]
    ensures Leads(t, n, answer, w0, {}, false, t, next) && next.stage.ServiceInserted?
    ensures next.job == w.job && next.order == w.order && next.svc == n
    ensures next.writes == map[ServiceAt(n) := ServiceRow(W.ServiceOf(w))]
  {
    next := W.WorkStatement(t, n, answer, w).next;
    LeadOn(t, n, answer, w0, {}, false, t, w, next);
  }

  lemma LeadLink(t: Tables, n: int, answer: Option<int>, w0: W.Worker, w: W.Worker) returns (next: W.Worker)
    requires Leads(t, n, answer, w0, {}, false, t, w) && w.stage.ServiceInserted?
    ensures Leads(t, n, answer, w0, {}, false, t, next) && next.stage.Joined? && next.job == w.job
    ensures var view := t + w.writes;
            next.writes ==
            if HasOrder(view, w.order) then
              w.writes[OrderAt(w.order) := OrderRow(OrderIn(view, w.order).(serviceId := Some(w.svc)))]
            else w.writes
  {
    next := W.WorkStatement(t, n, answer, w).next;
    LeadOn(t, n, answer, w0, {}, false, t, w, next);
  }

  lemma LeadCommit(t: Tables, n: int, answer: Option<int>, w0: W.Worker, w: W.Worker) returns (next: W.Worker)
    requires Leads(t, n, answer, w0, {}, false, t, w) && w.stage.Joined?
    ensures Leads(t, n, answer, w0, {}, false, t + w.writes, next) && next.stage.Persisted? && next.job == w.job
  {
    next := W.WorkStatement(t, n, answer, w).next;
    LeadDurable(t, n, answer, w0, {}, false, t, w, next);
  }

  /** The read of the retries, or its failure. */
  lemma LeadCount(t0: Tables, n: int, answer: Option<int>, w0: W.Worker, faults: set<W.Stage>, lost: bool, t: Tables,
                  w: W.Worker, retries: int, fault: bool)
    returns (all: set<W.Stage>, next: W.Worker)
    requires Leads(t0, n, answer, w0, faults, lost, t, w) && w.stage.Erred?
    requires retries == if HasJob(t, w.job) && !fault then JobIn(t, w.job).retries else 0
    ensures Leads(t0, n, answer, w0, all, lost, t, next) && next.stage.Counted? && next.job == w.job
    ensures next.dead <==> retries + 1 >= W.MAX_RETRIES
    ensures faults <= all && |all| == |faults| + Count(fault)
  {
    all := faults;
    if fault {
      LeadFault(t0, n, answer, w0, faults, lost, t, w);
      all, next := faults + {w.stage}, W.WorkFault(w).value;
    } else {
      next := W.WorkStatement(t, n, answer, w).next;
      LeadOn(t0, n, answer, w0, faults, lost, t, w, next);
    }
  }

  /** What handling a job needs: its order under its own vendor, an active panel, the order's
      catalog item, and an answer from the panel. */
  ghost predicate Deliverable(t: Tables, job: Job, answer: Option<int>) {
    && HasOrder(t, job.orderId) && OrderIn(t, job.orderId).vendorId == job.vendorId
    && HasActivePanel(t, job.vendorId)
    && HasItem(t, OrderIn(t, job.orderId).catalogId)
    && answer.Some?
  }

  /** The service a delivered job makes. */
  ghost function Delivered(t: Tables, job: Job, answer: Option<int>): Service
    requires Deliverable(t, job, answer)
  {
    var o := OrderIn(t, job.orderId);
    var it := ItemIn(t, o.catalogId);
    Service(job.vendorId, o.userId, Some(job.orderId), it.protocol, Active, answer, it.trafficGb, it.days)
  }

  lemma PanelFound(t: Tables, vendorId: int)
    ensures FirstActive(t, vendorId).Some? <==> HasActivePanel(t, vendorId)
  {
    forall p
      ensures p in ActivePanels(t, vendorId) <==> IsActivePanel(t, vendorId, p)
    {
    }
    assert ActivePanels(t, vendorId) != {} ==> Least(ActivePanels(t, vendorId)) in ActivePanels(t, vendorId);
  }

  /** The panel that the worker's query finds. */
  lemma PanelRead(t: Tables, vendorId: int, r: Fetch<Panel>)
    requires r == Err(Fault) || IsFirstPanel(t, vendorId, r)
    ensures r == Err(Fault) || (r == Err(NoRows) && FirstActive(t, vendorId).None?) ||
            (r.Found? && FirstActive(t, vendorId).Some? && r.value.vendorId == vendorId)
    ensures FirstActive(t, vendorId).Some? ==> PanelIn(t, FirstActive(t, vendorId).value).vendorId == vendorId
  {
    PanelFound(t, vendorId);
  }

  /** The reads, and the panel's answer. */
  lemma Prepares(t: Tables, n: int, answer: Option<int>, j: int, job: Job, faults: set<W.Stage>, lost: bool)
    returns (w: W.Worker)
    requires Deliverable(t, job, answer) && faults <= {W.Joined}
    ensures w.stage.Answered? && w.job == j && w.order == job.orderId && w.writes == map[]
    ensures W.ServiceOf(w) == Delivered(t, job, answer)
    ensures W.WorkAlone(t, n, answer, W.Claim(j, job), faults, lost) == W.WorkAlone(t, n, answer, w, faults, lost)
  {
    PanelFound(t, job.vendorId);
    var w1 := W.WorksOn(t, n, answer, W.Claim(j, job), faults, lost);
    var w2 := W.WorksOn(t, n, answer, w1, faults, lost);
    assert w2.panelVendor == job.vendorId;
    var w3 := W.WorksOn(t, n, answer, w2, faults, lost);
    w := W.WorksOn(t, n, answer, w3, faults, lost);
  }

  /** The rows the handling commits. */
  ghost function DeliveredRows(t: Tables, n: int, w: W.Worker): Tables
    requires HasOrder(t, w.order)
  {
    map[ServiceAt(n) := ServiceRow(W.ServiceOf(w)),
        OrderAt(w.order) := OrderRow(OrderIn(t, w.order).(serviceId := Some(n)))]
  }

  /** The transaction up to its commit. */
  lemma Joins(t: Tables, n: int, answer: Option<int>, w: W.Worker, faults: set<W.Stage>, lost: bool)
    returns (joined: W.Worker)
    requires w.stage.Answered? && w.writes == map[] && HasOrder(t, w.order) && faults <= {W.Joined}
    ensures joined.stage.Joined? && joined.job == w.job && joined.writes == DeliveredRows(t, n, w)
    ensures W.WorkAlone(t, n, answer, w, faults, lost) == W.WorkAlone(t, n, answer, joined, faults, lost)
  {
    var inserted := W.WorksOn(t, n, answer, w, faults, lost);
    assert OrderIn(t + inserted.writes, w.order) == OrderIn(t, w.order);
    joined := W.WorksOn(t, n, answer, inserted, faults, lost);
  }

  lemma FinishesDone(t: Tables, n: int, answer: Option<int>, w: W.Worker)
    requires w.stage.Persisted? && HasJob(t, w.job)
    ensures W.WorkAlone(t, n, answer, w, {}, false) ==
            t + map[JobAt(w.job) := JobRow(JobIn(t, w.job).(status := JobDone))]
  {
  }

  lemma Persists(t: Tables, n: int, answer: Option<int>, w: W.Worker)
    requires w.stage.Answered? && w.writes == map[] && HasOrder(t, w.order) && HasJob(t, w.job)
    ensures W.WorkAlone(t, n, answer, w, {}, false) ==
            t + DeliveredRows(t, n, w) + map[JobAt(w.job) := JobRow(JobIn(t, w.job).(status := JobDone))]
  {
    var joined := Joins(t, n, answer, w, {}, false);
    assert W.WorkStatement(t, n, answer, joined).Durable?;
    FinishesDone(t + joined.writes, n, answer, W.WorkStatement(t, n, answer, joined).next);
  }

  /** MarkFailed after an error return. */
  ghost function MarkedFailed(row: Job): Job {
    row.(status := JobFailed, retries := row.retries + 1, dead := row.retries + 1 >= 5)
  }

  lemma FinishesFailed(t: Tables, n: int, answer: Option<int>, w: W.Worker, faults: set<W.Stage>, lost: bool)
    requires w.stage.Erred? && HasJob(t, w.job) && faults <= {W.Joined}
    ensures W.WorkAlone(t, n, answer, w, faults, lost) == t + map[JobAt(w.job) := JobRow(MarkedFailed(JobIn(t, w.job)))]
  {
    var counted := W.WorksOn(t, n, answer, w, faults, lost);
  }

  lemma GivesUp(t: Tables, n: int, answer: Option<int>, w: W.Worker)
    requires HasJob(t, w.job) && W.WorkStatement(t, n, answer, w) == W.Onward(W.Abandon(w))
    ensures W.WorkAlone(t, n, answer, w, {}, false) == t + map[JobAt(w.job) := JobRow(MarkedFailed(JobIn(t, w.job)))]
  {
    FinishesFailed(t, n, answer, W.Abandon(w), {}, false);
  }

  /** A job whose commit goes unheard is failed all the same, with its service made and linked. */
  lemma UnheardOutcome(t: Tables, n: int, answer: Option<int>, j: int, job: Job)
    requires HasJob(t, j) && Deliverable(t, job, answer)
    ensures W.WorkAlone(t, n, answer, W.Claim(j, job), {W.Joined}, true) ==
            t + map[ServiceAt(n) := ServiceRow(Delivered(t, job, answer)),
                    OrderAt(job.orderId) := OrderRow(OrderIn(t, job.orderId).(serviceId := Some(n)))] +
            map[JobAt(j) := JobRow(MarkedFailed(JobIn(t, j)))]
  {
    var w := Prepares(t, n, answer, j, job, {W.Joined}, true);
    var joined := Joins(t, n, answer, w, {W.Joined}, true);
    FinishesFailed(t + joined.writes, n, answer, W.Abandon(joined), {W.Joined}, true);
  }

  /** The tables when the handling of a job is over, nothing having failed or gone unheard. */
  ghost function AfterJob(t: Tables, n: int, answer: Option<int>, j: int, job: Job): Tables
    requires HasJob(t, j)
  {
    if Deliverable(t, job, answer) then
      t + map[ServiceAt(n) := ServiceRow(Delivered(t, job, answer)),
              OrderAt(job.orderId) := OrderRow(OrderIn(t, job.orderId).(serviceId := Some(n)))] +
      map[JobAt(j) := JobRow(JobIn(t, j).(status := JobDone))]
    else
      t + map[JobAt(j) := JobRow(MarkedFailed(JobIn(t, j)))]
  }

  /** A job handled without faults is done, with a service made from its order's own catalog item
      and linked both ways, exactly when everything it needs is there; otherwise it is failed
      and nothing else changes. */
  lemma JobOutcome(t: Tables, n: int, answer: Option<int>, j: int, job: Job)
    requires HasJob(t, j)
    ensures W.WorkAlone(t, n, answer, W.Claim(j, job), {}, false) == AfterJob(t, n, answer, j, job)
  {
    if Deliverable(t, job, answer) {
      var w := Prepares(t, n, answer, j, job, {}, false);
      Persists(t, n, answer, w);
    } else {
      PanelFound(t, job.vendorId);
      var w := W.Claim(j, job);
      if OrderById(t, job.vendorId, job.orderId).Some? {
        w := W.WorksOn(t, n, answer, w, {}, false);
        if FirstActive(t, job.vendorId).Some? {
          w := W.WorksOn(t, n, answer, w, {}, false);
          if HasItem(t, OrderIn(t, job.orderId).catalogId) {
            w := W.WorksOn(t, n, answer, w, {}, false);
          }
        }
      }
      GivesUp(t, n, answer, w);
    }
  }

  /** The job is settled one way or the other. */
  predicate Settled(t: Tables, j: int) {
    HasJob(t, j) && (JobIn(t, j).status == JobDone || JobIn(t, j).status == JobFailed)
  }

  /** However its handling goes, a job ends done or failed, unless the very statement that marks it
      fails. */
  lemma {:induction false} JobSettles(t: Tables, n: int, answer: Option<int>, w: W.Worker, faults: set<W.Stage>,
                                      lost: bool)
    requires HasJob(t, w.job) && (forall j :: JobAt(j) !in w.writes)
    requires W.Persisted !in faults && W.Counted !in faults
    ensures Settled(W.WorkAlone(t, n, answer, w, faults, lost), w.job)
    decreases 10 - W.StageRank(w.stage)
  {
    W.StagesRise(t, n, answer, w);
    if w.stage in faults {
      if w.stage.Joined? && lost {
        JobSettles(t + w.writes, n, answer, W.Abandon(w), faults, lost);
      } else {
        JobSettles(t, n, answer, W.WorkFault(w).value, faults, lost);
      }
    } else {
      match W.WorkStatement(t, n, answer, w)
      case Onward(next) => JobSettles(t, n, answer, next, faults, lost);
      case Durable(next) => JobSettles(t + w.writes, n, answer, next, faults, lost);
      case Finished(_) =>
    }
  }

  /** The tables after the claim. */
  ghost function JustClaimed(t: Tables, j: int): Tables
    requires HasJob(t, j)
  {
    t + map[JobAt(j) := JobRow(JobIn(t, j).(status := JobProvisioning))]
  }

  /** At most the service sequence moves, and by one. */
  ghost predicate MayDraw(a: Seqs, b: Seqs) {
    b == a || b == a.(service := a.service + 1)
  }

  class WorkerV2 {
    const db: Database
    const jobs: ProvisioningJobRepository
    const orders: OrderRepository
    const catalog: CatalogRepository
    const panels: XUIPanelRepository
    const proxy: ProxyServiceRepository
    const maxRetries: int := W.MAX_RETRIES

    constructor (db: Database)
      ensures Valid() && this.db == db
    {
      this.db := db;
      jobs := new ProvisioningJobRepository(db);
      orders := new OrderRepository(db);
      catalog := new CatalogRepository(db);
      panels := new XUIPanelRepository(db);
      proxy := new ProxyServiceRepository(db);
    }

    ghost predicate Valid() {
      jobs.db == db && orders.db == db && catalog.db == db && panels.db == db && proxy.db == db
    }

    /** `answer` is what the panel call returns. An error leaves the tables as they were, unless
        the commit took effect and only its acknowledgement was `lost`. */
    method HandleJob(jobId: int, job: Job, answer: Option<int>)
      returns (failed: bool, ghost w: W.Worker, ghost faults: set<W.Stage>, ghost lost: bool)
      requires Valid()
      modifies db`rows, db`seqs, db`mishaps
      ensures Leads(old(db.rows), old(db.seqs.service), answer, W.Claim(jobId, job), faults, lost, db.rows, w)
      ensures w.job == jobId
      ensures MayDraw(old(db.seqs), db.seqs)
      ensures db.mishaps == old(db.mishaps) + |faults| && (lost ==> faults != {})
      ensures if failed then w.stage.Erred? && (!lost ==> db.rows == old(db.rows)) else w.stage.Persisted? && !lost
    {
      ghost var t, n := db.rows, db.seqs.service;
      ghost var w0 := W.Claim(jobId, job);
      w := w0;
      var order := orders.ById(job.vendorId, job.orderId);
      if order.Err? {
        faults := LeadError(t, n, answer, w0, w, order.error == Fault);
        return true, W.Abandon(w), faults, false;
      }
      ghost var next := w.(stage := W.OrderLoaded, user := order.value.userId, catalog := order.value.catalogId);
      LeadOn(t, n, answer, w0, {}, false, t, w, next);
      w := next;
      var panel := panels.FirstActive(job.vendorId);
      PanelRead(t, job.vendorId, panel);
      if panel.Err? {
        faults := LeadError(t, n, answer, w0, w, panel.error == Fault);
        return true, W.Abandon(w), faults, false;
      }
      next := w.(stage := W.PanelFound, panelVendor := panel.value.vendorId);
      LeadOn(t, n, answer, w0, {}, false, t, w, next);
      w := next;
      var cat := catalog.GetById(order.value.catalogId);
      if cat.Err? {
        faults := LeadError(t, n, answer, w0, w, cat.error == Fault);
        return true, W.Abandon(w), faults, false;
      }
      next := w.(stage := W.ItemLoaded, protocol := cat.value.protocol, traffic := cat.value.trafficGb,
                 days := cat.value.days);
      LeadOn(t, n, answer, w0, {}, false, t, w, next);
      w := next;
      if answer.None? {
        faults := LeadError(t, n, answer, w0, w, false);
        return true, W.Abandon(w), faults, false;
      }
      next := w.(stage := W.Answered, expires := answer.value);
      LeadOn(t, n, answer, w0, {}, false, t, w, next);
      failed, w, faults, lost :=
        Persist(Service(panel.value.vendorId, order.value.userId, Some(job.orderId), cat.value.protocol, Active,
                        answer, cat.value.trafficGb, cat.value.days),
                job.orderId, answer, w0, next);
    }

    /** The transaction that inserts the service and links the order to it. */
    method Persist(row: Service, orderId: int, ghost answer: Option<int>, ghost w0: W.Worker, ghost w1: W.Worker)
      returns (failed: bool, ghost w: W.Worker, ghost faults: set<W.Stage>, ghost lost: bool)
      requires Valid()
      requires Leads(db.rows, db.seqs.service, answer, w0, {}, false, db.rows, w1)
      requires w1.stage.Answered? && w1.writes == map[] && w1.order == orderId && W.ServiceOf(w1) == row
      modifies db`rows, db`seqs, db`mishaps
      ensures Leads(old(db.rows), old(db.seqs.service), answer, w0, faults, lost, db.rows, w)
      ensures w.job == w1.job
      ensures MayDraw(old(db.seqs), db.seqs)
      ensures db.mishaps == old(db.mishaps) + |faults| && (lost ==> faults != {})
      ensures if failed then w.stage.Erred? && (!lost ==> db.rows == old(db.rows)) else w.stage.Persisted? && !lost
    {
      ghost var t, n := db.rows, db.seqs.service;
      w := w1;
      var tx := new Tx(db);
      var svc := proxy.CreateTx(tx, row);
      if svc.Err? {
        faults := LeadError(t, n, answer, w0, w, true);
        tx.Rollback();
        return true, W.Abandon(w), faults, false;
      }
      w := LeadInsert(t, n, answer, w0, w);
      var err := orders.LinkServiceTx(tx, orderId, svc.value);
      if err.Some? {
        faults := LeadError(t, n, answer, w0, w, true);
        tx.Rollback();
        return true, W.Abandon(w), faults, false;
      }
      w := LeadLink(t, n, answer, w0, w);
      ghost var took;
      err, took := tx.Commit();
      if err.Some? {
        faults := LeadUncommitted(t, n, answer, w0, w, took);
        tx.Rollback();
        return true, W.Abandon(w), faults, took;
      }
      w := LeadCommit(t, n, answer, w0, w);
      return false, w, {}, false;
    }

    /** One tick: the least pending job, if any, is claimed and worked on to the end. When the
        claim's own acknowledgement is lost, the job stays claimed and nobody works on it. */
    method Tick(answer: Option<int>) returns (claimed: Fetch<int>, ghost faults: set<W.Stage>, ghost lost: bool)
      requires Valid()
      modifies db`rows, db`seqs, db`mishaps
      ensures MayDraw(old(db.seqs), db.seqs)
      ensures old(db.mishaps) + |faults| <= db.mishaps
      ensures claimed.Found? ==>
                Settled(db.rows, claimed.value) || W.Persisted in faults || W.Counted in faults
      ensures db.mishaps == old(db.mishaps) ==>
                var c := W.Claimable(old(db.rows), {});
                && claimed == (if c == {} then Err(NoRows) else Found(Least(c)))
                && db.rows ==
                   if c == {} then old(db.rows)
                   else AfterJob(JustClaimed(old(db.rows), Least(c)), old(db.seqs.service), answer, Least(c),
                                 JobIn(old(db.rows), Least(c)))
      ensures var c := W.Claimable(old(db.rows), {});
              if claimed.Found? then
                && c != {} && claimed.value == Least(c)
                && db.rows == W.WorkAlone(JustClaimed(old(db.rows), Least(c)), old(db.seqs.service), answer,
                                        W.Claim(Least(c), JobIn(old(db.rows), Least(c))), faults, lost)
              else
                && db.seqs == old(db.seqs)
                && (claimed.error == Fault || (claimed.error == NoRows && c == {}))
                && db.rows == if lost && c != {} then JustClaimed(old(db.rows), Least(c)) else old(db.rows)
    {
      faults := {};
      var next;
      next, lost := jobs.ClaimNext();
      if next.Err? {
        return next, faults, lost;
      }
      var j := next.value;
      ghost var t, n := db.rows, db.seqs.service;
      var job := JobIn(db.rows, j);
      ghost var w0 := W.Claim(j, job);
      ghost var w;
      var failed;
      failed, w, faults, lost := HandleJob(j, job, answer);
      if failed {
        faults := Fail(j, answer, t, n, w0, w, faults, lost);
      } else {
        ghost var u := db.rows;
        var err;
        ghost var took;
        err, took := jobs.MarkDone(j);
        faults := LeadEnd(t, n, answer, w0, faults, lost, u, w, !took);
      }
      JobOutcome(t, n, answer, j, job);
      if W.Persisted !in faults && W.Counted !in faults {
        JobSettles(t, n, answer, w0, faults, lost);
      }
      return next, faults, lost;
    }

    /** Read the job's retries and mark it failed. */
    method Fail(jobId: int, ghost answer: Option<int>, ghost t: Tables, ghost n: int, ghost w0: W.Worker,
                ghost w: W.Worker, ghost before: set<W.Stage>, ghost lost: bool)
      returns (ghost faults: set<W.Stage>)
      requires Valid() && w.stage.Erred? && w.job == jobId
      requires Leads(t, n, answer, w0, before, lost, db.rows, w)
      modifies db`rows, db`mishaps
      ensures db.rows == W.WorkAlone(t, n, answer, w0, faults, lost)
      ensures before <= faults && |faults| - |before| <= db.mishaps - old(db.mishaps)
    {
      var retries := jobs.Retries(jobId);
      var count := if retries.Found? then retries.value else 0;
      var dead := count + 1 >= maxRetries;
      ghost var next;
      faults, next := LeadCount(t, n, answer, w0, before, lost, db.rows, w, count, retries == Err(Fault));
      ghost var u := db.rows;
      var err;
      ghost var took;
      err, took := jobs.MarkFailed(jobId, dead);
      faults := LeadFailed(t, n, answer, w0, faults, lost, u, next, !took);
    }
  }
}
