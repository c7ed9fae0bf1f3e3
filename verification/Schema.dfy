/** The relational schema the engine works on. The database is one finite map from row
    addresses to rows: a table's rows are addressed by their BIGSERIAL id, except the
    idempotency table, whose rows are addressed by their UNIQUE columns. */
module Schema {

  datatype Option<+T> = None | Some(value: T)

  /** Go's int64 and Postgres' BIGINT. */
  const MIN_INT64 := -0x8000_0000_0000_0000
  const MAX_INT64 := 0x7fff_ffff_ffff_ffff
  const TWO_TO_64 := 0x1_0000_0000_0000_0000

  predicate IsInt64(n: int) {
    MIN_INT64 <= n <= MAX_INT64
  }

  /** Unary minus on an int64: the least value is its own negation. */
  function Neg64(n: int): int {
    if n == MIN_INT64 then n else -n
  }

  datatype Wallet = Wallet(userId: int, balance: int)

  datatype EntryKind = AdminTopup | OrderDebit
  datatype LedgerEntry = LedgerEntry(walletId: int, userId: int, amount: int, kind: EntryKind)

  datatype Item = Item(vendorId: int, protocol: string, trafficGb: int, days: int, price: int, active: bool)

  datatype Panel = Panel(vendorId: int, active: bool)

  /** The state constants shared by an order's status and lifecycle_state columns. */
  datatype OrderState =
    | StateApproved | StatePending | StateProvisioning | StateActive | StateSuspended | StateExpired | StateFailed
  datatype Order = Order(
    vendorId: int, userId: int, catalogId: int, amount: int,
    status: OrderState, lifecycle: OrderState, key: string, serviceId: Option<int>)

  datatype JobStatus = JobPending | JobProvisioning | JobDone | JobFailed
  datatype Job = Job(vendorId: int, orderId: int, status: JobStatus, retries: int, dead: bool)

  datatype ServiceStatus = Provisioning | Active | ProvisionFailed | Suspended | Expired
  datatype Service = Service(
    vendorId: int, userId: int, orderId: Option<int>, protocol: string,
    status: ServiceStatus, expiresAt: Option<int>, trafficGb: int, days: int)

  datatype Addr =
    | UserAt(id: int)
    | WalletAt(id: int)
    | LedgerAt(id: int)
    | ItemAt(id: int)
    | PanelAt(id: int)
    | OrderAt(id: int)
    | JobAt(id: int)
    | ServiceAt(id: int)
    | KeyAt(vendorId: int, userId: int, key: string)

  datatype Row =
    | UserRow(email: string)
    | WalletRow(wallet: Wallet)
    | LedgerRow(entry: LedgerEntry)
    | ItemRow(item: Item)
    | PanelRow(panel: Panel)
    | OrderRow(order: Order)
    | JobRow(job: Job)
    | ServiceRow(service: Service)
    | KeyRow(orderId: Option<int>)

  /** A database, or the write set of a transaction: the rows it has inserted or changed.
      `t + w` is what a reader sees when the rows of `w` lie over those of `t`. */
  type Tables = map<Addr, Row>

  predicate Typed(a: Addr, r: Row) {
    match a
    case UserAt(_) => r.UserRow?
    case WalletAt(_) => r.WalletRow?
    case LedgerAt(_) => r.LedgerRow?
    case ItemAt(_) => r.ItemRow?
    case PanelAt(_) => r.PanelRow?
    case OrderAt(_) => r.OrderRow?
    case JobAt(_) => r.JobRow?
    case ServiceAt(_) => r.ServiceRow?
    case KeyAt(_, _, _) => r.KeyRow?
  }

  predicate HasWallet(t: Tables, id: int) { WalletAt(id) in t && t[WalletAt(id)].WalletRow? }
  predicate HasEntry(t: Tables, id: int) { LedgerAt(id) in t && t[LedgerAt(id)].LedgerRow? }
  predicate HasItem(t: Tables, id: int) { ItemAt(id) in t && t[ItemAt(id)].ItemRow? }
  predicate HasPanel(t: Tables, id: int) { PanelAt(id) in t && t[PanelAt(id)].PanelRow? }
  predicate HasOrder(t: Tables, id: int) { OrderAt(id) in t && t[OrderAt(id)].OrderRow? }
  predicate HasJob(t: Tables, id: int) { JobAt(id) in t && t[JobAt(id)].JobRow? }
  predicate HasService(t: Tables, id: int) { ServiceAt(id) in t && t[ServiceAt(id)].ServiceRow? }

  function WalletIn(t: Tables, id: int): Wallet requires HasWallet(t, id) { t[WalletAt(id)].wallet }
  function EntryIn(t: Tables, id: int): LedgerEntry requires HasEntry(t, id) { t[LedgerAt(id)].entry }
  function ItemIn(t: Tables, id: int): Item requires HasItem(t, id) { t[ItemAt(id)].item }
  function PanelIn(t: Tables, id: int): Panel requires HasPanel(t, id) { t[PanelAt(id)].panel }
  function OrderIn(t: Tables, id: int): Order requires HasOrder(t, id) { t[OrderAt(id)].order }
  function JobIn(t: Tables, id: int): Job requires HasJob(t, id) { t[JobAt(id)].job }
  function ServiceIn(t: Tables, id: int): Service requires HasService(t, id) { t[ServiceAt(id)].service }

  /** The columns no statement of the program changes once the row is committed. */
  predicate SameCore(r: Row, s: Row) {
    match r
    case WalletRow(w) => s.WalletRow? && s.wallet.userId == w.userId
    case OrderRow(o) => s.OrderRow? && s.order == o.(serviceId := s.order.serviceId)
    case JobRow(j) => s.JobRow? && s.job.vendorId == j.vendorId && s.job.orderId == j.orderId
    case ServiceRow(v) =>
      s.ServiceRow? && s.service == v.(status := s.service.status, expiresAt := s.service.expiresAt)
    case _ => s == r
  }

  /** The next value of each BIGSERIAL sequence; sequences are not transactional. */
  datatype Seqs = Seqs(user: int, wallet: int, ledger: int, item: int, panel: int, order: int, job: int, service: int)

  const FIRST_IDS := Seqs(1, 1, 1, 1, 1, 1, 1, 1)

  /** The row has been handed out by its table's sequence. */
  predicate Issued(q: Seqs, a: Addr) {
    match a
    case UserAt(id) => 0 < id < q.user
    case WalletAt(id) => 0 < id < q.wallet
    case LedgerAt(id) => 0 < id < q.ledger
    case ItemAt(id) => 0 < id < q.item
    case PanelAt(id) => 0 < id < q.panel
    case OrderAt(id) => 0 < id < q.order
    case JobAt(id) => 0 < id < q.job
    case ServiceAt(id) => 0 < id < q.service
    case KeyAt(_, _, _) => true
  }

  /** `q` may be a later state of the sequences than `p`. */
  predicate Later(p: Seqs, q: Seqs) {
    p.user <= q.user && p.wallet <= q.wallet && p.ledger <= q.ledger && p.item <= q.item &&
    p.panel <= q.panel && p.order <= q.order && p.job <= q.job && p.service <= q.service
  }
}
