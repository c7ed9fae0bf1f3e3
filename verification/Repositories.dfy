/** The repositories' methods, each proved against the query or statement function that the
    interleaved engine uses for it. */
module Repositories {
  import opened Schema
  import opened Calls
  import opened Store
  import Q = Repository
  import E = Engine
  import W = Workers

  class OrderRepository {
    const db: Database

    constructor (db: Database)
      ensures this.db == db
    {
      this.db := db;
    }

    method ById(vendorId: int, orderId: int) returns (r: Fetch<Order>)
      modifies db`mishaps
      ensures db.mishaps == old(db.mishaps) + Count(r == Err(Fault))
      ensures r == Err(Fault) ||
              r == if HasOrder(db.rows, orderId) && OrderIn(db.rows, orderId).vendorId == vendorId then
                     Found(OrderIn(db.rows, orderId))
                   else Err(NoRows)
    {
      var fails := db.Fails();
      if fails {
        return Err(Fault);
      }
      if !HasOrder(db.rows, orderId) || OrderIn(db.rows, orderId).vendorId != vendorId {
        return Err(NoRows);
      }
      return Found(OrderIn(db.rows, orderId));
    }

    method CreateTx(tx: Tx, o: Order) returns (r: Fetch<int>)
      requires tx.db == db
      modifies tx, db`seqs, db`mishaps
      ensures db.mishaps == old(db.mishaps) + Count(r == Err(Fault))
      ensures r == Found(old(db.seqs.order)) || r == Err(Fault)
      ensures db.seqs == old(db.seqs).(order := old(db.seqs.order) + 1)
      ensures tx.writes == if r.Found? then old(tx.writes)[OrderAt(r.value) := OrderRow(o)] else old(tx.writes)
    {
      var id := db.seqs.order;
      db.seqs := db.seqs.(order := id + 1);
      var fails := db.Fails();
      if fails {
        return Err(Fault);
      }
      tx.writes := tx.writes[OrderAt(id) := OrderRow(o)];
      return Found(id);
    }

    /** The whole-row update that changes service_id alone; no row is no error. */
    method LinkServiceTx(tx: Tx, orderId: int, serviceId: int) returns (err: Option<Error>)
      requires tx.db == db
      modifies tx, db`mishaps
      ensures db.mishaps == old(db.mishaps) + Count(err == Some(Fault))
      ensures err == None || err == Some(Fault)
      ensures tx.writes ==
              if err.None? && HasOrder(old(tx.View()), orderId) then
                var order := OrderIn(old(tx.View()), orderId);
                old(tx.writes)[OrderAt(orderId) := OrderRow(order.(serviceId := Some(serviceId)))]
              else old(tx.writes)
    {
      var fails := db.Fails();
      if fails {
        return Some(Fault);
      }
      if HasOrder(tx.View(), orderId) {
        var order := OrderIn(tx.View(), orderId);
        tx.writes := tx.writes[OrderAt(orderId) := OrderRow(order.(serviceId := Some(serviceId)))];
      }
      return None;
    }
  }

  class IdempotencyRepository {
    const db: Database

    constructor (db: Database)
      ensures this.db == db
    {
      this.db := db;
    }

    method Resolve(vendorId: int, userId: int, key: string) returns (r: Fetch<int>)
      modifies db`mishaps
      ensures db.mishaps == old(db.mishaps) + Count(r == Err(Fault))
      ensures var k := KeyAt(vendorId, userId, key);
              r == Err(Fault) ||
              r == if k in db.rows && db.rows[k].KeyRow? && db.rows[k].orderId.Some? then
                     Found(db.rows[k].orderId.value)
                   else Found(0)
    {
      var fails := db.Fails();
      if fails {
        return Err(Fault);
      }
      var k := KeyAt(vendorId, userId, key);
      if k !in db.rows || !db.rows[k].KeyRow? {
        return Found(0);
      }
      if db.rows[k].orderId.Some? {
        return Found(db.rows[k].orderId.value);
      }
      return Found(0);
    }

    method ReserveTx(tx: Tx, vendorId: int, userId: int, key: string) returns (err: Option<Error>)
      requires tx.db == db
      modifies tx, db`mishaps
      ensures db.mishaps == old(db.mishaps) + Count(err == Some(Fault))
      ensures err == Some(Fault) ||
              err == if KeyAt(vendorId, userId, key) in old(tx.View()) then Some(DuplicateKey) else None
      ensures tx.writes ==
              if err.None? then old(tx.writes)[KeyAt(vendorId, userId, key) := KeyRow(None)] else old(tx.writes)
    {
      var fails := db.Fails();
      if fails {
        return Some(Fault);
      }
      if KeyAt(vendorId, userId, key) in tx.View() {
        return Some(DuplicateKey);
      }
      tx.writes := tx.writes[KeyAt(vendorId, userId, key) := KeyRow(None)];
      return None;
    }

    method LinkOrderTx(tx: Tx, vendorId: int, userId: int, key: string, orderId: int) returns (err: Option<Error>)
      requires tx.db == db
      modifies tx, db`mishaps
      ensures db.mishaps == old(db.mishaps) + Count(err == Some(Fault))
      ensures err == None || err == Some(Fault)
      ensures tx.writes ==
              if err.None? && KeyAt(vendorId, userId, key) in old(tx.View()) then
                old(tx.writes)[KeyAt(vendorId, userId, key) := KeyRow(Some(orderId))]
              else old(tx.writes)
    {
      var fails := db.Fails();
      if fails {
        return Some(Fault);
      }
      if KeyAt(vendorId, userId, key) in tx.View() {
        tx.writes := tx.writes[KeyAt(vendorId, userId, key) := KeyRow(Some(orderId))];
      }
      return None;
    }
  }

  class ProvisioningJobRepository {
    const db: Database

    constructor (db: Database)
      ensures this.db == db
    {
      this.db := db;
    }

    method EnqueueTx(tx: Tx, vendorId: int, orderId: int) returns (err: Option<Error>)
      requires tx.db == db
      modifies tx, db`seqs, db`mishaps
      ensures db.mishaps == old(db.mishaps) + Count(err == Some(Fault))
      ensures err == None || err == Some(Fault)
      ensures db.seqs == old(db.seqs).(job := old(db.seqs.job) + 1)
      ensures tx.writes ==
              if err.None? then
                old(tx.writes)[JobAt(old(db.seqs.job)) := JobRow(Job(vendorId, orderId, JobPending, 0, false))]
              else old(tx.writes)
    {
      var id := db.seqs.job;
      db.seqs := db.seqs.(job := id + 1);
      var fails := db.Fails();
      if fails {
        return Some(Fault);
      }
      tx.writes := tx.writes[JobAt(id) := JobRow(Job(vendorId, orderId, JobPending, 0, false))];
      return None;
    }

    /** With nothing else running no row is locked, so none is skipped. */
    method ClaimNext() returns (r: Fetch<int>, ghost took: bool)
      modifies db`rows, db`mishaps
      ensures db.mishaps == old(db.mishaps) + Count(r == Err(Fault))
      ensures r.Found? ==> took
      ensures var c := W.Claimable(old(db.rows), {});
              && (r == Err(Fault) || r == if c == {} then Err(NoRows) else Found(Q.Least(c)))
              && (took ==> c != {})
              && db.rows ==
                 if took && c != {} then
                   var j := Q.Least(c);
                   old(db.rows) + map[JobAt(j) := JobRow(JobIn(old(db.rows), j).(status := JobProvisioning))]
                 else old(db.rows)
    {
      var c := W.Claimable(db.rows, {});
      if c == {} {
        return Err(NoRows), false;
      }
      var j := Q.Least(c);
      var err;
      err, took := db.Exec(map[JobAt(j) := JobRow(JobIn(db.rows, j).(status := JobProvisioning))]);
      return if err.Some? then Err(err.value) else Found(j), took;
    }

    method MarkDone(jobId: int) returns (err: Option<Error>, ghost took: bool)
      modifies db`rows, db`mishaps
      ensures db.mishaps == old(db.mishaps) + Count(err == Some(Fault))
      ensures err == None || err == Some(Fault)
      ensures err == None ==> took
      ensures db.rows ==
              if took && HasJob(old(db.rows), jobId) then
                old(db.rows) + map[JobAt(jobId) := JobRow(JobIn(old(db.rows), jobId).(status := JobDone))]
              else old(db.rows)
    {
      var writes: Tables := map[];
      if HasJob(db.rows, jobId) {
        writes := map[JobAt(jobId) := JobRow(JobIn(db.rows, jobId).(status := JobDone))];
      }
      err, took := db.Exec(writes);
    }

    method MarkFailed(jobId: int, dead: bool) returns (err: Option<Error>, ghost took: bool)
      modifies db`rows, db`mishaps
      ensures db.mishaps == old(db.mishaps) + Count(err == Some(Fault))
      ensures err == None || err == Some(Fault)
      ensures err == None ==> took
      ensures db.rows ==
              if took && HasJob(old(db.rows), jobId) then
                var row := JobIn(old(db.rows), jobId);
                var failed := row.(status := JobFailed, retries := row.retries + 1, dead := dead);
                old(db.rows) + map[JobAt(jobId) := JobRow(failed)]
              else old(db.rows)
    {
      var writes: Tables := map[];
      if HasJob(db.rows, jobId) {
        var row := JobIn(db.rows, jobId);
        writes := map[JobAt(jobId) := JobRow(row.(status := JobFailed, retries := row.retries + 1, dead := dead))];
      }
      err, took := db.Exec(writes);
    }

    method Retries(jobId: int) returns (r: Fetch<int>)
      modifies db`mishaps
      ensures db.mishaps == old(db.mishaps) + Count(r == Err(Fault))
      ensures r == Err(Fault) ||
              r == if HasJob(db.rows, jobId) then Found(JobIn(db.rows, jobId).retries) else Err(NoRows)
    {
      var fails := db.Fails();
      if fails {
        return Err(Fault);
      }
      if !HasJob(db.rows, jobId) {
        return Err(NoRows);
      }
      return Found(JobIn(db.rows, jobId).retries);
    }
  }

  class CatalogPriceRepository {
    const db: Database

    constructor (db: Database)
      ensures this.db == db
    {
      this.db := db;
    }

    method Get(vendorId: int, catalogId: int) returns (r: Fetch<Item>)
      modifies db`mishaps
      ensures db.mishaps == old(db.mishaps) + Count(r == Err(Fault))
      ensures r == Err(Fault) ||
              r == if HasItem(db.rows, catalogId) && ItemIn(db.rows, catalogId).vendorId == vendorId then
                     Found(ItemIn(db.rows, catalogId))
                   else Err(NoRows)
    {
      var fails := db.Fails();
      if fails {
        return Err(Fault);
      }
      if !HasItem(db.rows, catalogId) || ItemIn(db.rows, catalogId).vendorId != vendorId {
        return Err(NoRows);
      }
      return Found(ItemIn(db.rows, catalogId));
    }
  }

  /** Why a deduction cannot be made, if it cannot. */
  function DeductError(view: Tables, userId: int, amount: int): Option<Error> {
    match Q.WalletOf(view, userId)
    case None => Some(NoRows)
    case Some(w) =>
      var balance := WalletIn(view, w).balance;
      if balance < amount then Some(Insufficient) else if !IsInt64(balance - amount) then Some(OutOfRange) else None
  }

  /** `err` is the error that the wallet calls for, or the statement `at` failed for a reason
      outside the model: the locked read, or the update after it, or the ledger row after that. */
  ghost predicate DeductEnds(view: Tables, userId: int, amount: int, err: Option<Error>, at: Pc) {
    if err == Some(Fault) then
      && (at == Reserved || at == WalletLocked || at == Debited)
      && (at != Reserved ==>
            Q.WalletOf(view, userId).Some? && amount <= WalletIn(view, Q.WalletOf(view, userId).value).balance)
      && (at == Debited ==> DeductError(view, userId, amount) == None)
    else err == DeductError(view, userId, amount)
  }

  function Deducted(view: Tables, w: int, amount: int): Row
    requires HasWallet(view, w)
  {
    WalletRow(WalletIn(view, w).(balance := WalletIn(view, w).balance - amount))
  }

  class WalletTxRepository {
    const db: Database

    constructor (db: Database)
      ensures this.db == db
    {
      this.db := db;
    }

    /** The lock on the wallet's row is held from the read to the transaction's end. */
    method DeductTx(tx: Tx, userId: int, amount: int) returns (err: Option<Error>, ghost at: Pc)
      requires tx.db == db
      modifies tx, db`seqs, db`mishaps
      ensures db.mishaps == old(db.mishaps) + Count(err == Some(Fault))
      ensures DeductEnds(old(tx.View()), userId, amount, err, at)
      ensures db.seqs == if err == None || (err == Some(Fault) && at == Debited) then
                           old(db.seqs).(ledger := old(db.seqs.ledger) + 1)
                         else old(db.seqs)
      ensures err == None ==>
                var w := Q.WalletOf(old(tx.View()), userId).value;
                tx.writes == old(tx.writes)
                  [WalletAt(w) := Deducted(old(tx.View()), w, amount)]
                  [LedgerAt(old(db.seqs.ledger)) := LedgerRow(LedgerEntry(w, userId, Neg64(amount), OrderDebit))]
    {
      at := Reserved;
      var fails := db.Fails();
      if fails {
        return Some(Fault), at;
      }
      var row := Q.WalletOf(tx.View(), userId);
      if row.None? {
        return Some(NoRows), at;
      }
      var w := row.value;
      var balance := WalletIn(tx.View(), w).balance;
      if balance < amount {
        return Some(Insufficient), at;
      }
      at := WalletLocked;
      fails := db.Fails();
      if fails {
        return Some(Fault), at;
      }
      if !IsInt64(balance - amount) {
        return Some(OutOfRange), at;
      }
      tx.writes := tx.writes[WalletAt(w) := Deducted(tx.View(), w, amount)];
      at := Debited;
      var id := db.seqs.ledger;
      db.seqs := db.seqs.(ledger := id + 1);
      fails := db.Fails();
      if fails {
        return Some(Fault), at;
      }
      tx.writes := tx.writes[LedgerAt(id) := LedgerRow(LedgerEntry(w, userId, Neg64(amount), OrderDebit))];
      return None, at;
    }
  }

  class ProxyServiceRepository {
    const db: Database

    constructor (db: Database)
      ensures this.db == db
    {
      this.db := db;
    }

    method CreateTx(tx: Tx, row: Service) returns (r: Fetch<int>)
      requires tx.db == db
      modifies tx, db`seqs, db`mishaps
      ensures db.mishaps == old(db.mishaps) + Count(r == Err(Fault))
      ensures r == Found(old(db.seqs.service)) || r == Err(Fault)
      ensures db.seqs == old(db.seqs).(service := old(db.seqs.service) + 1)
      ensures tx.writes == if r.Found? then old(tx.writes)[ServiceAt(r.value) := ServiceRow(row)] else old(tx.writes)
    {
      var id := db.seqs.service;
      db.seqs := db.seqs.(service := id + 1);
      var fails := db.Fails();
      if fails {
        return Err(Fault);
      }
      tx.writes := tx.writes[ServiceAt(id) := ServiceRow(row)];
      return Found(id);
    }

    method ById(vendorId: int, id: int) returns (r: Fetch<Service>)
      modifies db`mishaps
      ensures db.mishaps == old(db.mishaps) + Count(r == Err(Fault))
      ensures r == Err(Fault) ||
              r == if HasService(db.rows, id) && ServiceIn(db.rows, id).vendorId == vendorId then
                     Found(ServiceIn(db.rows, id))
                   else Err(NoRows)
    {
      var fails := db.Fails();
      if fails {
        return Err(Fault);
      }
      if !HasService(db.rows, id) || ServiceIn(db.rows, id).vendorId != vendorId {
        return Err(NoRows);
      }
      return Found(ServiceIn(db.rows, id));
    }

    method ByIdForUserTx(tx: Tx, id: int, userId: int) returns (r: Fetch<Service>)
      requires tx.db == db
      modifies db`mishaps
      ensures db.mishaps == old(db.mishaps) + Count(r == Err(Fault))
      ensures r == Err(Fault) ||
              r == if HasService(tx.View(), id) && ServiceIn(tx.View(), id).userId == userId then
                     Found(ServiceIn(tx.View(), id))
                   else Err(NoRows)
    {
      var fails := db.Fails();
      if fails {
        return Err(Fault);
      }
      if !HasService(tx.View(), id) || ServiceIn(tx.View(), id).userId != userId {
        return Err(NoRows);
      }
      return Found(ServiceIn(tx.View(), id));
    }

    /** now() is the transaction's start. */
    method ExtendExpiryTx(tx: Tx, id: int, days: int) returns (err: Option<Error>)
      requires tx.db == db
      modifies tx, db`mishaps
      ensures db.mishaps == old(db.mishaps) + Count(err == Some(Fault))
      ensures err == None || err == Some(Fault)
      ensures tx.writes ==
              if err.None? && HasService(old(tx.View()), id) then
                var row := ServiceIn(old(tx.View()), id);
                var from := if row.expiresAt.None? || row.expiresAt.value < tx.began then tx.began
                            else row.expiresAt.value;
                old(tx.writes)[ServiceAt(id) := ServiceRow(row.(expiresAt := Some(from + days * 86_400)))]
              else old(tx.writes)
    {
      var fails := db.Fails();
      if fails {
        return Some(Fault);
      }
      if HasService(tx.View(), id) {
        var row := ServiceIn(tx.View(), id);
        var from := if row.expiresAt.None? || row.expiresAt.value < tx.began then tx.began else row.expiresAt.value;
        tx.writes := tx.writes[ServiceAt(id) := ServiceRow(row.(expiresAt := Some(from + days * Q.DAY)))];
      }
      return None;
    }

    method UpdateStatus(vendorId: int, id: int, status: ServiceStatus)
      returns (err: Option<Error>, ghost took: bool)
      modifies db`rows, db`mishaps
      ensures db.mishaps == old(db.mishaps) + Count(err == Some(Fault))
      ensures err == None || err == Some(Fault)
      ensures err == None ==> took
      ensures db.rows ==
              if took && HasService(old(db.rows), id) && ServiceIn(old(db.rows), id).vendorId == vendorId then
                old(db.rows)[ServiceAt(id) := ServiceRow(ServiceIn(old(db.rows), id).(status := status))]
              else old(db.rows)
    {
      var writes: Tables := map[];
      if HasService(db.rows, id) && ServiceIn(db.rows, id).vendorId == vendorId {
        writes := map[ServiceAt(id) := ServiceRow(ServiceIn(db.rows, id).(status := status))];
      }
      err, took := db.Exec(writes);
    }

    method MarkExpired() returns (r: Fetch<int>, ghost took: bool)
      modifies db`rows, db`mishaps
      ensures db.mishaps == old(db.mishaps) + Count(r == Err(Fault))
      ensures r == Found(|E.SweepWrite(old(db.rows), db.clock)|) || r == Err(Fault)
      ensures r.Found? ==> took
      ensures db.rows == if took then old(db.rows) + E.SweepWrite(old(db.rows), db.clock) else old(db.rows)
    {
      var due := map a | a in db.rows && a.ServiceAt? && E.Due(db.rows[a], db.clock)
                   :: ServiceRow(db.rows[a].service.(status := Expired));
      var err;
      err, took := db.Exec(due);
      return if err.Some? then Err(Fault) else Found(|due|), took;
    }
  }

  class CatalogRepository {
    const db: Database

    constructor (db: Database)
      ensures this.db == db
    {
      this.db := db;
    }

    /** Not filtered by vendor. */
    method GetById(id: int) returns (r: Fetch<Item>)
      modifies db`mishaps
      ensures db.mishaps == old(db.mishaps) + Count(r == Err(Fault))
      ensures r == Err(Fault) || r == if HasItem(db.rows, id) then Found(ItemIn(db.rows, id)) else Err(NoRows)
    {
      var fails := db.Fails();
      if fails {
        return Err(Fault);
      }
      if !HasItem(db.rows, id) {
        return Err(NoRows);
      }
      return Found(ItemIn(db.rows, id));
    }
  }

  /** An active panel of the vendor. */
  predicate IsActivePanel(t: Tables, vendorId: int, id: int) {
    HasPanel(t, id) && PanelIn(t, id).vendorId == vendorId && PanelIn(t, id).active
  }

  ghost predicate HasActivePanel(t: Tables, vendorId: int) {
    exists p :: IsActivePanel(t, vendorId, p)
  }

  /** The vendor's active panel with the least id, or none. */
  ghost predicate IsFirstPanel(t: Tables, vendorId: int, r: Fetch<Panel>) {
    if !HasActivePanel(t, vendorId) then r == Err(NoRows)
    else
      exists p :: IsActivePanel(t, vendorId, p) && r == Found(PanelIn(t, p)) &&
                  forall q :: IsActivePanel(t, vendorId, q) ==> p <= q
  }

  class XUIPanelRepository {
    const db: Database

    constructor (db: Database)
      ensures this.db == db
    {
      this.db := db;
    }

    method FirstActive(vendorId: int) returns (r: Fetch<Panel>)
      modifies db`mishaps
      ensures db.mishaps == old(db.mishaps) + Count(r == Err(Fault))
      ensures r == Err(Fault) || IsFirstPanel(db.rows, vendorId, r)
    {
      var fails := db.Fails();
      if fails {
        return Err(Fault);
      }
      var ids := Q.ActivePanels(db.rows, vendorId);
      assert forall p :: p in ids <==> IsActivePanel(db.rows, vendorId, p);
      if ids == {} {
        return Err(NoRows);
      }
      return Found(PanelIn(db.rows, Q.Least(ids)));
    }
  }

  class UserRepository {
    const db: Database

    constructor (db: Database)
      ensures this.db == db
    {
      this.db := db;
    }

    method Create(email: string) returns (r: Fetch<int>, ghost took: bool)
      modifies db`rows, db`seqs, db`mishaps
      ensures db.mishaps == old(db.mishaps) + Count(r == Err(Fault))
      ensures || r == Err(Fault)
              || r == if UserRow(email) in old(db.rows).Values then Err(DuplicateKey) else Found(old(db.seqs.user))
      ensures r.Found? ==> took
      ensures took ==> UserRow(email) !in old(db.rows).Values
      ensures db.seqs == old(db.seqs).(user := old(db.seqs.user) + 1)
      ensures db.rows ==
              if took then old(db.rows) + map[UserAt(old(db.seqs.user)) := UserRow(email)] else old(db.rows)
    {
      var id := db.seqs.user;
      db.seqs := db.seqs.(user := id + 1);
      if UserRow(email) in db.rows.Values {
        return Err(DuplicateKey), false;
      }
      var err;
      err, took := db.Exec(map[UserAt(id) := UserRow(email)]);
      return if err.Some? then Err(err.value) else Found(id), took;
    }
  }
}
