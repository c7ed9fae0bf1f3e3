/** The provisioning worker's handling of one claimed job, one statement at a time. */
module Workers {
  import opened Schema
  import opened Repository

  const MAX_RETRIES := 5

  /** The constructor names the last thing the worker has done; Erred and Counted lie on the
      path that ends in MarkFailed. */
  datatype Stage =
    | Claimed | OrderLoaded | PanelFound | ItemLoaded | Answered
    | ServiceInserted | Joined | Persisted
    | Erred | Counted

  datatype Worker = Worker(
    stage: Stage, job: int, order: int, vendor: int,
    user: int, catalog: int, panelVendor: int,
    protocol: string, traffic: int, days: int, expires: int,
    svc: int, dead: bool, writes: Tables, locks: set<Addr>)

  function Claim(jobId: int, job: Job): Worker {
    Worker(Claimed, jobId, job.orderId, job.vendorId, 0, 0, 0, "", 0, 0, 0, 0, false, map[], {})
  }

  /** The jobs ClaimNext may take: pending, not dead, and not locked by anyone. */
  function Claimable(t: Tables, locked: set<Addr>): (ids: set<int>)
    ensures forall j :: j in ids <==>
                        HasJob(t, j) && JobIn(t, j).status == JobPending && !JobIn(t, j).dead && JobAt(j) !in locked
  {
    set a | a in t && a.JobAt? && t[a].JobRow? && t[a].job.status == JobPending && !t[a].job.dead && a !in locked
      :: a.id
  }

  function ServiceOf(w: Worker): Service {
    Service(w.panelVendor, w.user, Some(w.order), w.protocol, Active, Some(w.expires), w.traffic, w.days)
  }

  /** An error return of handleJob: the open transaction, if any, is rolled back. */
  function Abandon(w: Worker): Worker {
    w.(stage := Erred, writes := map[], locks := {})
  }

  datatype WorkOutcome =
    | Onward(next: Worker)
    | Durable(next: Worker)       // the worker's write set becomes durable, and it goes on
    | Finished(writes: Tables)    // a last autocommitted statement, with this write set

  /** `answer` is what the panel call returns: an expiry, or nothing on failure;
      `newService` is the value proxy_services' sequence would hand out. */
  function WorkStatement(t: Tables, newService: int, answer: Option<int>, w: Worker): WorkOutcome {
    match w.stage
    case Claimed =>
      (match OrderById(t, w.vendor, w.order)
       case None => Onward(Abandon(w))
       case Some(o) => Onward(w.(stage := OrderLoaded, user := o.userId, catalog := o.catalogId)))
    case OrderLoaded =>
      (match FirstActive(t, w.vendor)
       case None => Onward(Abandon(w))
       case Some(p) => Onward(w.(stage := PanelFound, panelVendor := PanelIn(t, p).vendorId)))
    case PanelFound =>
      (match ItemById(t, w.catalog)
       case None => Onward(Abandon(w))
       case Some(it) =>
         Onward(w.(stage := ItemLoaded, protocol := it.protocol, traffic := it.trafficGb, days := it.days)))
    case ItemLoaded =>
      (match answer
       case None => Onward(Abandon(w))
       case Some(e) => Onward(w.(stage := Answered, expires := e)))
    case Answered =>
      Onward(w.(stage := ServiceInserted, svc := newService,
                writes := w.writes[ServiceAt(newService) := ServiceRow(ServiceOf(w))],
                locks := w.locks + {ServiceAt(newService)}))
    case ServiceInserted =>
      var view := t + w.writes;
      if !HasOrder(view, w.order) then Onward(w.(stage := Joined))
      else
        Onward(w.(stage := Joined,
                  writes := w.writes[OrderAt(w.order) := OrderRow(OrderIn(view, w.order).(serviceId := Some(w.svc)))],
                  locks := w.locks + {OrderAt(w.order)}))
    case Joined => Durable(w.(stage := Persisted, writes := map[], locks := {}))
    case Persisted =>
      Finished(if HasJob(t, w.job) then map[JobAt(w.job) := JobRow(JobIn(t, w.job).(status := JobDone))] else map[])
    case Erred =>
      var retries := if HasJob(t, w.job) then JobIn(t, w.job).retries else 0;
      Onward(w.(stage := Counted, dead := retries + 1 >= MAX_RETRIES))
    case Counted =>
      Finished(if HasJob(t, w.job) then
                 var row := JobIn(t, w.job);
                 map[JobAt(w.job) := JobRow(row.(status := JobFailed, retries := row.retries + 1, dead := w.dead))]
               else map[])
  }

  /** A statement fails: before the commit handleJob returns an error, afterwards the result
      of MarkDone or MarkFailed is ignored and the worker is done with the job. */
  function WorkFault(w: Worker): Option<Worker> {
    match w.stage
    case Persisted => None
    case Counted => None
    case Erred => Some(w.(stage := Counted, dead := 0 + 1 >= MAX_RETRIES))
    case _ => Some(Abandon(w))
  }

  function WorkRequests(t: Tables, w: Worker): Option<Addr> {
    if w.stage == ServiceInserted && HasOrder(t, w.order) then Some(OrderAt(w.order)) else None
  }

  function StageRank(s: Stage): nat {
    match s
    case Claimed => 0
    case OrderLoaded => 1
    case PanelFound => 2
    case ItemLoaded => 3
    case Answered => 4
    case ServiceInserted => 5
    case Joined => 6
    case Persisted => 7
    case Erred => 8
    case Counted => 9
  }

  lemma StagesRise(t: Tables, newService: int, answer: Option<int>, w: Worker)
    ensures var out := WorkStatement(t, newService, answer, w);
            (out.Onward? || out.Durable?) ==> StageRank(w.stage) < StageRank(out.next.stage)
    ensures WorkFault(w).Some? ==> StageRank(w.stage) < StageRank(WorkFault(w).value.stage)
  {
  }

  /** The tables after a job is worked on alone; the statements after the stages in `faults`
      fail for reasons outside the model. `lost` makes the failure of the commit one of its
      acknowledgement only: the commit takes effect, and the worker takes it for a failure. */
  function WorkAlone(t: Tables, newService: int, answer: Option<int>, w: Worker,
                     faults: set<Stage>, lost: bool): Tables
    decreases 10 - StageRank(w.stage)
  {
    StagesRise(t, newService, answer, w);
    if w.stage in faults then
      if w.stage.Joined? && lost then WorkAlone(t + w.writes, newService, answer, Abandon(w), faults, lost)
      else
        match WorkFault(w)
        case None => t
        case Some(next) => WorkAlone(t, newService, answer, next, faults, lost)
    else
      match WorkStatement(t, newService, answer, w)
      case Onward(next) => WorkAlone(t, newService, answer, next, faults, lost)
      case Durable(next) => WorkAlone(t + w.writes, newService, answer, next, faults, lost)
      case Finished(writes) => t + writes
  }

  /** A statement that neither fails nor writes to the tables. */
  lemma WorksOn(t: Tables, newService: int, answer: Option<int>, w: Worker, faults: set<Stage>, lost: bool)
    returns (next: Worker)
    requires WorkStatement(t, newService, answer, w).Onward? && w.stage !in faults
    ensures next == WorkStatement(t, newService, answer, w).next
    ensures WorkAlone(t, newService, answer, w, faults, lost) == WorkAlone(t, newService, answer, next, faults, lost)
  {
    next := WorkStatement(t, newService, answer, w).next;
  }
}
