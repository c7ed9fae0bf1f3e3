/** Every call of the system running at once over one database. A label is one step of one
    call; a run is a sequence of labels. A transaction's writes stay in its own write set
    until it commits, and no step takes a lock that another transaction holds. */
module Engine {
  import opened Schema
  import opened Repository
  import opened Calls
  import W = Workers

  datatype Proc =
    | Buying(buyer: Buyer)
    | Working(worker: W.Worker)
    | Registering(userId: int)                            // Register, between its two inserts
    | AwaitingPanel(vendor: int, svc: int)                // Provision, after its insert
    | Toggling(vendor: int, svc: int, target: ServiceStatus)  // Suspend or Resume, after its read

  function LocksOf(p: Proc): set<Addr> {
    match p
    case Buying(b) => b.locks
    case Working(w) => w.locks
    case _ => {}
  }

  /** One committed change: a whole Create, Renew or ApplyTransaction, or a worker's handling of a
      job the panel answered for, to be replayed from its first statement; or the write set of a
      single statement. */
  datatype Entry =
    | Bought(tid: int, call: Call, ids: Ids, began: int)
    | Handled(job: int, svc: int, expires: int)
    | Wrote(writes: Tables)

  datatype Answer = Answer(call: Call, reply: Reply)

  datatype State = State(
    db: Tables,
    procs: map<int, Proc>,
    seqs: Seqs,
    clock: int,
    log: seq<Entry>,
    answers: map<int, Answer>,
    lost: set<int>)     // jobs whose worker never heard that its commit succeeded

  const INITIAL := State(map[], map[], FIRST_IDS, 0, [], map[], {})

  /** `heard` is false when a commit takes effect but its acknowledgement is lost. */
  datatype Label =
    | Submit(tid: int, call: Call)
    | Advance(tid: int, heard: bool)    // the next statement of a Create, Renew or top-up
    | Disrupt(tid: int)                 // it fails for a reason outside the model
    | Crash(tid: int)                   // the process vanishes
    | Register(tid: int, email: string)
    | EnsureWallet(tid: int)
    | Claim(tid: int)
    | Work(tid: int, answer: Option<int>, heard: bool)
    | Provision(tid: int, vendorId: int, userId: int, orderId: Option<int>, protocol: string, trafficGb: int, days: int)
    | PanelReply(tid: int, ok: bool)
    | ReadService(tid: int, vendorId: int, serviceId: int, target: ServiceStatus)
    | SetStatus(tid: int)
    | AddItem(item: Item)
    | AddPanel(panel: Panel)
    | Sweep(at: int)
    | Tick(elapsed: nat)

  /** The locks of every process but `except`. */
  function Locked(procs: map<int, Proc>, except: set<int>): set<Addr> {
    set tid, l | tid in procs && tid !in except && l in LocksOf(procs[tid]) :: l
  }

  /** An autocommitted statement with write set `w`. */
  function Write(s: State, w: Tables): State {
    s.(db := s.db + w, log := s.log + [Wrote(w)])
  }

  predicate Waits(s: State, tid: int, request: Option<Addr>) {
    request.Some? && request.value in Locked(s.procs, {tid})
  }

  function Reply(s: State, tid: int, call: Call, reply: Calls.Reply): State {
    s.(procs := s.procs - {tid}, answers := s.answers[tid := Answer(call, reply)])
  }

  function AdvanceBuyer(s: State, tid: int, p: Buyer, heard: bool): Option<State> {
    if Waits(s, tid, Requests(s.db, p)) then None
    else if !heard && !Statement(s.db, SequenceIds(s.seqs), p).Committed? then None
    else
      match Statement(s.db, SequenceIds(s.seqs), p)
      case Continue(next) => Some(s.(procs := s.procs[tid := Buying(next)], seqs := Draw(s.seqs, p)))
      case Returned(r) => Some(Reply(s, tid, p.call, r))
      case Committed(r) =>
        Some(Reply(s.(db := s.db + p.writes, log := s.log + [Bought(tid, p.call, p.ids, p.began)]), tid, p.call,
                   if heard then r else Refused(Fault)))
      case Failed(e) => Some(Reply(s, tid, p.call, Refused(e)))
  }

  function AdvanceWorker(s: State, tid: int, w: W.Worker, answer: Option<int>, heard: bool): Option<State> {
    if Waits(s, tid, W.WorkRequests(s.db, w)) then None
    else if !heard && !W.WorkStatement(s.db, s.seqs.service, answer, w).Durable? then None
    else
      match W.WorkStatement(s.db, s.seqs.service, answer, w)
      case Onward(next) =>
        Some(s.(procs := s.procs[tid := Working(next)],
                seqs := if w.stage.Answered? then s.seqs.(service := s.seqs.service + 1) else s.seqs))
      case Durable(next) =>
        var s' := s.(db := s.db + w.writes, log := s.log + [Handled(w.job, w.svc, w.expires)]);
        if heard then Some(s'.(procs := s.procs[tid := Working(next)]))
        else Some(s'.(procs := s.procs[tid := Working(W.Abandon(w))], lost := s.lost + {w.job}))
      case Finished(writes) =>
        if JobAt(w.job) in Locked(s.procs, {tid}) then None
        else Some(Write(s, writes).(procs := s.procs - {tid}))
  }

  /** UPDATE proxy_services SET status; no row matches a wrong vendor. */
  function StatusWrite(t: Tables, vendorId: int, serviceId: int, status: ServiceStatus): Tables {
    if ServiceById(t, vendorId, serviceId).None? then map[]
    else map[ServiceAt(serviceId) := ServiceRow(ServiceIn(t, serviceId).(status := status))]
  }

  function UpdateStatus(s: State, tid: int, vendorId: int, serviceId: int, status: ServiceStatus): Option<State> {
    if ServiceAt(serviceId) in Locked(s.procs, {tid}) then None
    else Some(Write(s, StatusWrite(s.db, vendorId, serviceId, status)).(procs := s.procs - {tid}))
  }

  predicate Due(row: Row, at: int) {
    row.ServiceRow? && row.service.status == Active && row.service.expiresAt.Some? && row.service.expiresAt.value < at
  }

  /** The write set of MarkExpired when its transaction starts at `at`. */
  function SweepWrite(t: Tables, at: int): Tables {
    map a | a in t && a.ServiceAt? && Due(t[a], at) :: ServiceRow(t[a].service.(status := Expired))
  }

  predicate MayToggle(row: Service, target: ServiceStatus) {
    (target == Suspended && row.status != Suspended) || (target == Active && row.status == Suspended)
  }

  predicate Unused(s: State, tid: int) {
    tid !in s.procs && tid !in s.answers
  }

  function SubmitCall(s: State, tid: int, call: Call): Option<State> {
    if !Unused(s, tid) || (call.TopUp? && !IsInt64(call.amount)) then None
    else Some(s.(procs := s.procs[tid := Buying(Begin(call, s.clock))]))
  }

  function Interrupt(s: State, tid: int): Option<State> {
    if tid !in s.procs then None
    else
      match s.procs[tid]
      case Buying(p) => Some(Reply(s.(seqs := Draw(s.seqs, p)), tid, p.call, Refused(Fault)))
      case Working(w) =>
        (match W.WorkFault(w)
         case None => Some(s.(procs := s.procs - {tid}))
         case Some(next) => Some(s.(procs := s.procs[tid := Working(next)])))
      case _ => Some(s.(procs := s.procs - {tid}))
  }

  /** Register's INSERT INTO users, with its UNIQUE email. */
  function RegisterUser(s: State, tid: int, email: string): Option<State> {
    if !Unused(s, tid) || UserRow(email) in s.db.Values then None
    else Some(Write(s, map[UserAt(s.seqs.user) := UserRow(email)]).(
                seqs := s.seqs.(user := s.seqs.user + 1), procs := s.procs[tid := Registering(s.seqs.user)]))
  }

  /** EnsureForUser: UNIQUE(user_id, vendor_id) never conflicts, because vendor_id is null. */
  function EnsureForUser(s: State, tid: int): Option<State> {
    if tid in s.procs && s.procs[tid].Registering? then
      Some(Write(s, map[WalletAt(s.seqs.wallet) := WalletRow(Wallet(s.procs[tid].userId, 0))]).(
             seqs := s.seqs.(wallet := s.seqs.wallet + 1), procs := s.procs - {tid}))
    else None
  }

  function ClaimNext(s: State, tid: int): Option<State> {
    var c := W.Claimable(s.db, Locked(s.procs, {}));
    if !Unused(s, tid) || c == {} then None
    else
      var j := Least(c);
      Some(Write(s, map[JobAt(j) := JobRow(JobIn(s.db, j).(status := JobProvisioning))]).(
             procs := s.procs[tid := Working(W.Claim(j, JobIn(s.db, j)))]))
  }

  /** Provision's insert, in a transaction of its own. */
  function ProvisionService(s: State, tid: int, row: Service): Option<State> {
    if !Unused(s, tid) || FirstActive(s.db, row.vendorId).None?
       || (row.orderId.Some? && !HasOrder(s.db, row.orderId.value)) then None
    else
      Some(Write(s, map[ServiceAt(s.seqs.service) := ServiceRow(row)]).(
             seqs := s.seqs.(service := s.seqs.service + 1),
             procs := s.procs[tid := AwaitingPanel(row.vendorId, s.seqs.service)]))
  }

  function BeginToggle(s: State, tid: int, v: int, sid: int, target: ServiceStatus): Option<State> {
    var row := ServiceById(s.db, v, sid);
    if !Unused(s, tid) || row.None? || !MayToggle(row.value, target) then None
    else Some(s.(procs := s.procs[tid := Toggling(v, sid, target)]))
  }

  function InsertItem(s: State, item: Item): Option<State> {
    if !IsInt64(item.price) then None
    else Some(Write(s, map[ItemAt(s.seqs.item) := ItemRow(item)]).(seqs := s.seqs.(item := s.seqs.item + 1)))
  }

  function InsertPanel(s: State, panel: Panel): State {
    Write(s, map[PanelAt(s.seqs.panel) := PanelRow(panel)]).(seqs := s.seqs.(panel := s.seqs.panel + 1))
  }

  /** MarkExpired, in a transaction that started at `at`. */
  function SweepExpired(s: State, at: int): Option<State> {
    if at > s.clock || !(SweepWrite(s.db, at).Keys !! Locked(s.procs, {})) then None
    else Some(Write(s, SweepWrite(s.db, at)))
  }

  /** One step; None when the label is not possible in this state. */
  function Next(s: State, l: Label): Option<State> {
    match l
    case Submit(tid, call) => SubmitCall(s, tid, call)
    case Advance(tid, heard) =>
      if tid in s.procs && s.procs[tid].Buying? then AdvanceBuyer(s, tid, s.procs[tid].buyer, heard) else None
    case Disrupt(tid) => Interrupt(s, tid)
    case Crash(tid) => if tid in s.procs then Some(s.(procs := s.procs - {tid})) else None
    case Register(tid, email) => RegisterUser(s, tid, email)
    case EnsureWallet(tid) => EnsureForUser(s, tid)
    case Claim(tid) => ClaimNext(s, tid)
    case Work(tid, answer, heard) =>
      if tid in s.procs && s.procs[tid].Working? then
        AdvanceWorker(s, tid, s.procs[tid].worker, answer, heard)
      else None
    case Provision(tid, v, u, order, protocol, traffic, days) =>
      ProvisionService(s, tid, Service(v, u, order, protocol, Provisioning, Some(s.clock + days * DAY), traffic, days))
    case PanelReply(tid, ok) =>
      if tid in s.procs && s.procs[tid].AwaitingPanel? then
        UpdateStatus(s, tid, s.procs[tid].vendor, s.procs[tid].svc, if ok then Active else ProvisionFailed)
      else None
    case ReadService(tid, v, sid, target) => BeginToggle(s, tid, v, sid, target)
    case SetStatus(tid) =>
      if tid in s.procs && s.procs[tid].Toggling? then
        UpdateStatus(s, tid, s.procs[tid].vendor, s.procs[tid].svc, s.procs[tid].target)
      else None
    case AddItem(item) => InsertItem(s, item)
    case AddPanel(panel) => Some(InsertPanel(s, panel))
    case Sweep(at) => SweepExpired(s, at)
    case Tick(elapsed) => Some(s.(clock := s.clock + elapsed))
  }

  /** The state a run ends in, if each of its labels is possible in turn. */
  function Run(s: State, ls: seq<Label>): Option<State>
    decreases |ls|
  {
    if ls == [] then Some(s)
    else
      match Next(s, ls[0])
      case None => None
      case Some(s') => Run(s', ls[1..])
  }

  ghost predicate Reachable(s: State) {
    exists ls :: Run(INITIAL, ls) == Some(s)
  }
}
