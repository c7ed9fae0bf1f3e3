/** Create, Renew and ApplyTransaction as processes that execute one SQL statement at a time.
    A process carries its call's local variables, the write set of its open transaction and
    the locks that transaction holds. */
module Calls {
  import opened Schema
  import opened Repository
  import Decimal

  datatype Call =
    | Create(vendorId: int, userId: int, catalogId: int, key: string)
    | Renew(userId: int, serviceId: int, key: string)   // the key as formatted from the clock
    | TopUp(userId: int, amount: int)

  datatype Error =
    | KeyRequired | NoRows | NoOriginalOrder | VendorIsolation | Inactive
    | DuplicateKey | Insufficient | OutOfRange | WrongStatus | Fault

  datatype Reply =
    | Placed(orderId: int, status: OrderState, lifecycle: OrderState, duplicate: bool)
    | Applied
    | Refused(error: Error)

  predicate Successful(r: Reply) {
    r.Applied? || (r.Placed? && !r.duplicate)
  }

  /** The point a call has reached: the constructor names the last statement that succeeded. */
  datatype Pc =
    | Start
    | Hit | Resolved            // Create only
    | ServiceRead | OrderRead   // Renew only
    | Priced
    | Reserved
    | WalletLocked
    | Debited
    | Logged
    | Ordered
    | Linked
    | Queued
    | Extended                  // Renew only

  function Rank(pc: Pc): (r: nat)
    ensures r <= 11
  {
    match pc
    case Start => 0
    case Hit => 1
    case ServiceRead => 1
    case Resolved => 2
    case OrderRead => 2
    case Priced => 3
    case Reserved => 4
    case WalletLocked => 5
    case Debited => 6
    case Logged => 7
    case Ordered => 8
    case Linked => 9
    case Queued => 10
    case Extended => 11
  }

  datatype Ids = Ids(ledger: int, order: int, job: int)
  const NO_IDS := Ids(0, 0, 0)

  datatype Buyer = Buyer(
    call: Call, pc: Pc, began: int,
    vendor: int, catalog: int, price: int, days: int, ref: int,
    wallet: int, ids: Ids, writes: Tables, locks: set<Addr>)

  function Begin(call: Call, began: int): Buyer {
    Buyer(call, Start, began, 0, 0, 0, 0, 0, 0, NO_IDS, map[], {})
  }

  /** fmt.Sprintf("renew:%d:%d", serviceID, now) */
  function RenewKey(serviceId: int, nano: int): string {
    "renew:" + Decimal.Print(serviceId) + ":" + Decimal.Print(nano)
  }

  function CallKey(call: Call): string {
    if call.TopUp? then "" else call.key
  }

  /** The address of the call's idempotency row. */
  function KeyOf(p: Buyer): Addr {
    KeyAt(p.vendor, p.call.userId, CallKey(p.call))
  }

  /** The balance after the call's UPDATE wallets. */
  function NewBalance(p: Buyer, balance: int): int {
    if p.call.TopUp? then balance + p.call.amount else balance - p.price
  }

  function EntryOf(p: Buyer): LedgerEntry {
    if p.call.TopUp? then LedgerEntry(p.wallet, p.call.userId, p.call.amount, AdminTopup)
    else LedgerEntry(p.wallet, p.call.userId, Neg64(p.price), OrderDebit)
  }

  function OrderOf(p: Buyer): Order {
    Order(p.vendor, p.call.userId, p.catalog, p.price, StateApproved, StatePending, CallKey(p.call), None)
  }

  function JobOf(p: Buyer): Job {
    Job(p.vendor, p.ids.order, JobPending, 0, false)
  }

  datatype Outcome =
    | Continue(next: Buyer)
    | Returned(reply: Reply)    // without a write
    | Committed(reply: Reply)   // the process's write set becomes durable
    | Failed(error: Error)      // rolled back

  /** The first statement of each call. */
  function FirstStatement(t: Tables, p: Buyer): Outcome {
    match p.call
    case Create(v, u, c, key) =>
      if key == "" then Failed(KeyRequired)
      else
        var n := Resolve(t, KeyAt(v, u, key));
        if n != 0 then Continue(p.(pc := Hit, vendor := v, ref := n)) else Continue(p.(pc := Resolved))
    case Renew(u, sid, _) =>
      (match ServiceForUser(t, sid, u)
       case None => Failed(NoRows)
       case Some(svc) =>
         if svc.orderId.None? then Failed(NoOriginalOrder)
         else Continue(p.(pc := ServiceRead, vendor := svc.vendorId, ref := svc.orderId.value, days := svc.days,
                          locks := p.locks + {ServiceAt(sid)})))
    case TopUp(u, _) =>
      (match WalletOf(t, u)
       case None => Failed(NoRows)
       case Some(w) => Continue(p.(pc := WalletLocked, wallet := w, locks := p.locks + {WalletAt(w)})))
  }

  /** Create's catalog lookup and checks. */
  function CreatePrice(t: Tables, p: Buyer): Outcome
    requires p.call.Create?
  {
    match PriceOf(t, p.call.vendorId, p.call.catalogId)
    case None => Failed(NoRows)
    case Some(item) =>
      if item.vendorId != p.call.vendorId then Failed(VendorIsolation)
      else if !item.active then Failed(Inactive)
      else Continue(p.(pc := Priced, vendor := p.call.vendorId, catalog := p.call.catalogId, price := item.price))
  }

  /** Renew's catalog lookup, which does not test whether the item is active. */
  function RenewPrice(t: Tables, p: Buyer): Outcome {
    match PriceOf(t, p.vendor, p.catalog)
    case None => Failed(NoRows)
    case Some(item) => Continue(p.(pc := Priced, price := item.price))
  }

  /** ReserveTx: the insert fails on a key that is already there. */
  function ReserveKey(view: Tables, p: Buyer): Outcome {
    if KeyOf(p) in view then Failed(DuplicateKey)
    else Continue(p.(pc := Reserved, writes := p.writes[KeyOf(p) := KeyRow(None)], locks := p.locks + {KeyOf(p)}))
  }

  /** The locked read of DeductTx and its balance check. */
  function LockWallet(view: Tables, p: Buyer): Outcome {
    match WalletOf(view, p.call.userId)
    case None => Failed(NoRows)
    case Some(w) =>
      if WalletIn(view, w).balance < p.price then Failed(Insufficient)
      else Continue(p.(pc := WalletLocked, wallet := w, locks := p.locks + {WalletAt(w)}))
  }

  function UpdateBalance(view: Tables, p: Buyer): Outcome {
    if !HasWallet(view, p.wallet) then Failed(NoRows)
    else
      var row := WalletIn(view, p.wallet);
      var balance := NewBalance(p, row.balance);
      if !IsInt64(balance) then Failed(OutOfRange)
      else Continue(p.(pc := Debited, writes := p.writes[WalletAt(p.wallet) := WalletRow(row.(balance := balance))]))
  }

  function InsertLedger(ids: Ids, p: Buyer): Outcome {
    Continue(p.(pc := Logged, ids := p.ids.(ledger := ids.ledger),
                writes := p.writes[LedgerAt(ids.ledger) := LedgerRow(EntryOf(p))],
                locks := p.locks + {LedgerAt(ids.ledger)}))
  }

  function InsertOrder(ids: Ids, p: Buyer): Outcome {
    Continue(p.(pc := Ordered, ids := p.ids.(order := ids.order),
                writes := p.writes[OrderAt(ids.order) := OrderRow(OrderOf(p))],
                locks := p.locks + {OrderAt(ids.order)}))
  }

  /** LinkOrderTx: an UPDATE that matches no row is no error. */
  function LinkKey(view: Tables, p: Buyer): Outcome {
    if KeyOf(p) !in view then Continue(p.(pc := Linked))
    else Continue(p.(pc := Linked, writes := p.writes[KeyOf(p) := KeyRow(Some(p.ids.order))]))
  }

  function EnqueueJob(ids: Ids, p: Buyer): Outcome {
    Continue(p.(pc := Queued, ids := p.ids.(job := ids.job),
                writes := p.writes[JobAt(ids.job) := JobRow(JobOf(p))],
                locks := p.locks + {JobAt(ids.job)}))
  }

  function Renewed(row: Service, p: Buyer): Service {
    row.(expiresAt := Some(ExtendedExpiry(row.expiresAt, p.days, p.began)))
  }

  /** ExtendExpiryTx; `status` stays as it is. */
  function ExtendExpiry(view: Tables, p: Buyer): Outcome
    requires p.call.Renew?
  {
    var sid := p.call.serviceId;
    if !HasService(view, sid) then Continue(p.(pc := Extended))
    else Continue(p.(pc := Extended,
                     writes := p.writes[ServiceAt(sid) := ServiceRow(Renewed(ServiceIn(view, sid), p))]))
  }

  /** The statements before the purchase proper: the lookups of Create and Renew. */
  function Lookup(t: Tables, p: Buyer): (out: Outcome)
    requires Rank(p.pc) < 3
    ensures out.Continue? ==> Rank(p.pc) < Rank(out.next.pc)
  {
    match p.pc
    case Start => FirstStatement(t, p)
    case Hit =>
      (match OrderById(t, p.vendor, p.ref)
       case None => Failed(NoRows)
       case Some(o) => Returned(Placed(p.ref, o.status, o.lifecycle, true)))
    case Resolved => if p.call.Create? then CreatePrice(t, p) else Failed(Fault)
    case ServiceRead =>
      (match OrderById(t, p.vendor, p.ref)
       case None => Failed(NoRows)
       case Some(o) => Continue(p.(pc := OrderRead, catalog := o.catalogId)))
    case OrderRead => if p.call.Renew? then RenewPrice(t, p) else Failed(Fault)
  }

  /** The statements that write: reserve, debit, log, order, link, enqueue, extend. */
  function Purchase(t: Tables, ids: Ids, p: Buyer): (out: Outcome)
    requires 3 <= Rank(p.pc)
    ensures out.Continue? ==> Rank(p.pc) < Rank(out.next.pc)
  {
    var view := t + p.writes;
    match p.pc
    case Priced => ReserveKey(view, p)
    case Reserved => LockWallet(view, p)
    case WalletLocked => UpdateBalance(view, p)
    case Debited => InsertLedger(ids, p)
    case Logged => if p.call.TopUp? then Committed(Applied) else InsertOrder(ids, p)
    case Ordered => LinkKey(view, p)
    case Linked => EnqueueJob(ids, p)
    case Queued =>
      if p.call.Renew? then ExtendExpiry(view, p)
      else Committed(Placed(p.ids.order, StateApproved, StatePending, false))
    case Extended => Committed(Placed(p.ids.order, StateApproved, StatePending, false))
  }

  /** The next statement of a call, on committed tables `t`; `ids` are the values the
      sequences would hand out. */
  function Statement(t: Tables, ids: Ids, p: Buyer): (out: Outcome)
    ensures out.Continue? ==> Rank(p.pc) < Rank(out.next.pc)
  {
    if Rank(p.pc) < 3 then Lookup(t, p) else Purchase(t, ids, p)
  }

  /** The lock the next statement asks for, if it asks for one. */
  function Requests(t: Tables, p: Buyer): Option<Addr> {
    match p.pc
    case Start =>
      if p.call.Renew? && ServiceForUser(t, p.call.serviceId, p.call.userId).Some? then
        Some(ServiceAt(p.call.serviceId))
      else if p.call.TopUp? && WalletOf(t, p.call.userId).Some? then
        Some(WalletAt(WalletOf(t, p.call.userId).value))
      else None
    case Priced => Some(KeyOf(p))
    case Reserved =>
      if WalletOf(t, p.call.userId).Some? then Some(WalletAt(WalletOf(t, p.call.userId).value)) else None
    case _ => None
  }

  /** The ids a call will draw: it inserts at most one row into each of these tables. */
  function SequenceIds(q: Seqs): Ids {
    Ids(q.ledger, q.order, q.job)
  }

  /** The sequences after the next statement, which may draw an id. */
  function Draw(q: Seqs, p: Buyer): Seqs {
    match p.pc
    case Debited => q.(ledger := q.ledger + 1)
    case Logged => if p.call.TopUp? then q else q.(order := q.order + 1)
    case Linked => q.(job := q.job + 1)
    case _ => q
  }

  /** A whole call executed with nothing else running: the committed tables afterwards and
      the reply. Statements named in `faults` fail for reasons outside the model. */
  datatype Result = Result(tables: Tables, reply: Reply)

  function Solo(t: Tables, ids: Ids, p: Buyer, faults: set<Pc>): Result
    decreases 12 - Rank(p.pc)
  {
    if p.pc in faults then Result(t, Refused(Fault))
    else
      match Statement(t, ids, p)
      case Continue(next) => Solo(t, ids, next, faults)
      case Returned(r) => Result(t, r)
      case Committed(r) => Result(t + p.writes, r)
      case Failed(e) => Result(t, Refused(e))
  }

  function RunAlone(t: Tables, ids: Ids, call: Call, began: int, faults: set<Pc>): Result {
    Solo(t, ids, Begin(call, began), faults)
  }

  /** The sequences after the same run; an id drawn by a failed call stays drawn. */
  function Drawn(t: Tables, ids: Ids, p: Buyer, faults: set<Pc>, q: Seqs): Seqs
    decreases 12 - Rank(p.pc)
  {
    if p.pc in faults then Draw(q, p)
    else
      var out := Statement(t, ids, p);
      if out.Continue? then Drawn(t, ids, out.next, faults, Draw(q, p)) else q
  }
}
