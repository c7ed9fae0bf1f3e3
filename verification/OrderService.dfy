/** Create and Renew as the order service runs them: from the first statement to the commit or
    the rollback, with nothing else running. */
module OrderService {
  import opened Schema
  import opened Calls
  import opened Store
  import opened Repositories
  import opened Sequential
  import Q = Repository

  ghost function Step(t: Tables, ids: Ids, p: Buyer): Buyer
    requires Statement(t, ids, p).Continue?
  {
    Statement(t, ids, p).next
  }

  /** The locked read of a deduction whose balance covers the price. */
  lemma LocksWallet(t: Tables, ids: Ids, p: Buyer)
    requires p.pc.Reserved?
    requires Q.WalletOf(t + p.writes, p.call.userId).Some?
    requires p.price <= WalletIn(t + p.writes, Q.WalletOf(t + p.writes, p.call.userId).value).balance
    ensures Statement(t, ids, p).Continue?
    ensures var q := Step(t, ids, p);
            q.pc.WalletLocked? && q.writes == p.writes && q.wallet == Q.WalletOf(t + p.writes, p.call.userId).value &&
            q == p.(pc := q.pc, wallet := q.wallet, locks := q.locks)
  {
  }

  /** The update that follows it. */
  lemma PaysWallet(t: Tables, ids: Ids, p: Buyer)
    requires p.pc.WalletLocked? && !p.call.TopUp? && HasWallet(t + p.writes, p.wallet)
    requires IsInt64(WalletIn(t + p.writes, p.wallet).balance - p.price)
    ensures Statement(t, ids, p).Continue?
    ensures Step(t, ids, p) ==
            p.(pc := Debited, writes := p.writes[WalletAt(p.wallet) := Deducted(t + p.writes, p.wallet, p.price)])
  {
  }

  /** The call after the locked read, when the balance covers the price. */
  lemma Locks(t: Tables, p: Buyer, a: Seqs, q: Buyer) returns (r: Buyer)
    requires Reaches(t, SequenceIds(a), p, a, q, a)
    requires q.pc.Reserved?
    requires var row := Q.WalletOf(t + q.writes, q.call.userId);
             row.Some? && q.price <= WalletIn(t + q.writes, row.value).balance
    ensures Reaches(t, SequenceIds(a), p, a, r, a)
    ensures r == q.(pc := WalletLocked, wallet := Q.WalletOf(t + q.writes, q.call.userId).value, locks := r.locks)
  {
    LocksWallet(t, SequenceIds(a), q);
    r := Step(t, SequenceIds(a), q);
    ReachStep(t, SequenceIds(a), p, a, q, a, r);
  }

  /** And after the update. */
  lemma Updates(t: Tables, p: Buyer, a: Seqs, q: Buyer) returns (r: Buyer)
    requires Reaches(t, SequenceIds(a), p, a, q, a)
    requires q.pc.WalletLocked? && !q.call.TopUp? && HasWallet(t + q.writes, q.wallet)
    requires IsInt64(WalletIn(t + q.writes, q.wallet).balance - q.price)
    ensures Reaches(t, SequenceIds(a), p, a, r, a)
    ensures r == q.(pc := Debited, writes := q.writes[WalletAt(q.wallet) := Deducted(t + q.writes, q.wallet, q.price)])
  {
    PaysWallet(t, SequenceIds(a), q);
    r := Step(t, SequenceIds(a), q);
    ReachStep(t, SequenceIds(a), p, a, q, a, r);
  }

  /** A deduction that is made, from the call `q0` at its reservation. */
  lemma Deducts(t: Tables, p: Buyer, a: Seqs, q0: Buyer) returns (q: Buyer)
    requires Reaches(t, SequenceIds(a), p, a, q0, a)
    requires q0.pc.Reserved? && !q0.call.TopUp?
    requires DeductError(t + q0.writes, q0.call.userId, q0.price) == None
    ensures Reaches(t, SequenceIds(a), p, a, q, a.(ledger := a.ledger + 1))
    ensures var w := Q.WalletOf(t + q0.writes, q0.call.userId).value;
            && q == q0.(pc := Logged, wallet := w, ids := q.ids, locks := q.locks, writes := q.writes)
            && q.writes == q0.writes[WalletAt(w) := Deducted(t + q0.writes, w, q0.price)]
                 [LedgerAt(a.ledger) := LedgerRow(LedgerEntry(w, q0.call.userId, Neg64(q0.price), OrderDebit))]
  {
    var locked := Locks(t, p, a, q0);
    var paid := Updates(t, p, a, locked);
    q := InsertLedger(SequenceIds(a), paid).next;
    ReachStep(t, SequenceIds(a), p, a, paid, a, q);
  }

  /** The statement at which a deduction fails. */
  lemma DeductReaches(t: Tables, p: Buyer, a: Seqs, q0: Buyer, e: Error, at: Pc) returns (q: Buyer)
    requires Reaches(t, SequenceIds(a), p, a, q0, a)
    requires q0.pc.Reserved? && !q0.call.TopUp?
    requires DeductEnds(t + q0.writes, q0.call.userId, q0.price, Some(e), at)
    ensures Reaches(t, SequenceIds(a), p, a, q, a)
    ensures if e == Fault then q.pc == at && !q.call.TopUp? else Statement(t, SequenceIds(a), q) == Failed(e)
  {
    q := q0;
    if (e == Fault && at != Reserved) || e == OutOfRange {
      q := Locks(t, p, a, q);
      if e == Fault && at == Debited {
        q := Updates(t, p, a, q);
      }
    }
  }

  /** A deduction that fails. */
  lemma DeductFails(t: Tables, p: Buyer, a: Seqs, q0: Buyer, e: Error, at: Pc) returns (faults: set<Pc>)
    requires Reaches(t, SequenceIds(a), p, a, q0, a)
    requires q0.pc.Reserved? && !q0.call.TopUp?
    requires DeductEnds(t + q0.writes, q0.call.userId, q0.price, Some(e), at)
    ensures e != Fault ==> faults == {}
    ensures Ran(t, a, p, faults, t, if e == Fault && at == Debited then a.(ledger := a.ledger + 1) else a, Refused(e))
  {
    var q := DeductReaches(t, p, a, q0, e, at);
    faults := FaultAt(q, e);
    Refuses(t, p, a, q, a, e);
  }

  class Service {
    const db: Database
    const orders: OrderRepository
    const idempotency: IdempotencyRepository
    const jobs: ProvisioningJobRepository
    const wallet: WalletTxRepository
    const catalog: CatalogPriceRepository
    const proxy: ProxyServiceRepository

    constructor (db: Database)
      ensures Valid() && this.db == db
    {
      this.db := db;
      orders := new OrderRepository(db);
      idempotency := new IdempotencyRepository(db);
      jobs := new ProvisioningJobRepository(db);
      wallet := new WalletTxRepository(db);
      catalog := new CatalogPriceRepository(db);
      proxy := new ProxyServiceRepository(db);
    }

    ghost predicate Valid() {
      orders.db == db && idempotency.db == db && jobs.db == db && wallet.db == db && catalog.db == db && proxy.db == db
    }

    /** `faults` is the statement that failed for a reason outside the model, if one did. */
    method Create(vendorId: int, userId: int, catalogId: int, key: string)
      returns (reply: Reply, ghost faults: set<Pc>)
      requires Valid()
      modifies db`rows, db`seqs, db`mishaps
      ensures var p := Begin(Calls.Create(vendorId, userId, catalogId, key), db.clock);
              Ended(old(db.rows), old(db.seqs), p, faults, db.rows, db.seqs, reply)
      ensures db.mishaps == old(db.mishaps) + Count(reply == Refused(Fault))
      ensures reply != Refused(Fault) ==> faults == {}
    {
      ghost var t, a, ids := db.rows, db.seqs, SequenceIds(db.seqs);
      ghost var p := Begin(Calls.Create(vendorId, userId, catalogId, key), db.clock);
      ghost var q := p;
      faults := {};
      assert Reaches(t, ids, p, a, p, a);
      if key == "" {
        Stops(t, p, a, q, a, Refused(KeyRequired));
        return Refused(KeyRequired), faults;
      }
      var existing := idempotency.Resolve(vendorId, userId, key);
      if existing.Err? {
        faults := {q.pc};
        Faulted(t, p, a, q, a);
        return Refused(existing.error), faults;
      }
      q := ReachLookup(t, ids, p, a, q, a);
      if existing.value != 0 {
        var o := orders.ById(vendorId, existing.value);
        if o.Err? {
          faults := FaultAt(q, o.error);
          Refuses(t, p, a, q, a, o.error);
          return Refused(o.error), faults;
        }
        Stops(t, p, a, q, a, Placed(existing.value, o.value.status, o.value.lifecycle, true));
        return Placed(existing.value, o.value.status, o.value.lifecycle, true), faults;
      }
      var cat := catalog.Get(vendorId, catalogId);
      if cat.Err? {
        faults := FaultAt(q, cat.error);
        Refuses(t, p, a, q, a, cat.error);
        return Refused(cat.error), faults;
      }
      if cat.value.vendorId != vendorId {
        Stops(t, p, a, q, a, Refused(VendorIsolation));
        return Refused(VendorIsolation), faults;
      }
      if !cat.value.active {
        Stops(t, p, a, q, a, Refused(Inactive));
        return Refused(Inactive), faults;
      }
      q := ReachLookup(t, ids, p, a, q, a);
      var tx := new Tx(db);
      var err;
      err, q, faults := Pay(tx, vendorId, userId, cat.value.price, key, p, q);
      if err.Some? {
        tx.Rollback();
        return Refused(err.value), faults;
      }
      var order;
      order, q, faults := Place(tx, vendorId, userId, catalogId, cat.value.price, key, p, a, q);
      if order.Err? {
        tx.Rollback();
        return Refused(order.error), faults;
      }
      reply, faults := Finish(tx, order.value, p, a, q);
    }

    /** Renew's key is formatted from the clock; `nano` is its reading. */
    method Renew(userId: int, serviceId: int, nano: int) returns (reply: Reply, ghost faults: set<Pc>)
      requires Valid()
      modifies db`rows, db`seqs, db`mishaps
      ensures var p := Begin(Calls.Renew(userId, serviceId, RenewKey(serviceId, nano)), db.clock);
              Ended(old(db.rows), old(db.seqs), p, faults, db.rows, db.seqs, reply)
      ensures db.mishaps == old(db.mishaps) + Count(reply == Refused(Fault))
      ensures reply != Refused(Fault) ==> faults == {}
    {
      ghost var t, a := db.rows, db.seqs;
      ghost var p := Begin(Calls.Renew(userId, serviceId, RenewKey(serviceId, nano)), db.clock);
      ghost var q;
      var tx := new Tx(db);
      var original;
      original, q, faults := Original(tx, userId, serviceId, p);
      if original.Err? {
        tx.Rollback();
        return Refused(original.error), faults;
      }
      var (svc, catalogId, price) := original.value;
      var key := RenewKey(serviceId, nano);
      var err;
      err, q, faults := Pay(tx, svc.vendorId, userId, price, key, p, q);
      if err.Some? {
        tx.Rollback();
        return Refused(err.value), faults;
      }
      var order;
      order, q, faults := Place(tx, svc.vendorId, userId, catalogId, price, key, p, a, q);
      if order.Err? {
        tx.Rollback();
        return Refused(order.error), faults;
      }
      err, q, faults := Extend(tx, serviceId, svc.days, p, a, q);
      if err.Some? {
        tx.Rollback();
        return Refused(err.value), faults;
      }
      reply, faults := Finish(tx, order.value, p, a, q);
    }

    /** Renew's reads: the service under lock, its order's catalog item, and the item's price. */
    method Original(tx: Tx, userId: int, serviceId: int, ghost p: Buyer)
      returns (r: Fetch<(Schema.Service, int, int)>, ghost q: Buyer, ghost faults: set<Pc>)
      requires Valid() && tx.db == db && tx.writes == map[]
      requires p.pc.Start? && p.call.Renew? && p.call.userId == userId && p.call.serviceId == serviceId
      modifies db`mishaps
      ensures db.mishaps == old(db.mishaps) + Count(r == Err(Fault))
      ensures r != Err(Fault) ==> faults == {}
      ensures r.Err? ==> Ran(db.rows, db.seqs, p, faults, db.rows, db.seqs, Refused(r.error))
      ensures r.Found? ==>
                && faults == {}
                && Reaches(db.rows, SequenceIds(db.seqs), p, db.seqs, q, db.seqs)
                && q == p.(pc := Priced, vendor := r.value.0.vendorId, ref := q.ref, days := r.value.0.days,
                           catalog := r.value.1, price := r.value.2, locks := q.locks)
    {
      ghost var t, a, ids := db.rows, db.seqs, SequenceIds(db.seqs);
      q := p;
      assert Reaches(t, ids, p, a, p, a);
      assert tx.View() == t;
      var svc := proxy.ByIdForUserTx(tx, serviceId, userId);
      if svc.Err? {
        Refuses(t, p, a, q, a, svc.error);
        return Err(svc.error), q, FaultAt(q, svc.error);
      }
      if svc.value.orderId.None? {
        Stops(t, p, a, q, a, Refused(NoOriginalOrder));
        return Err(NoOriginalOrder), q, {};
      }
      q := ReachService(t, ids, p, a, q, a, svc.value);
      var original := orders.ById(svc.value.vendorId, svc.value.orderId.value);
      if original.Err? {
        Refuses(t, p, a, q, a, original.error);
        return Err(original.error), q, FaultAt(q, original.error);
      }
      q := ReachOriginal(t, ids, p, a, q, a, original.value);
      var cat := catalog.Get(svc.value.vendorId, original.value.catalogId);
      if cat.Err? {
        Refuses(t, p, a, q, a, cat.error);
        return Err(cat.error), q, FaultAt(q, cat.error);
      }
      q := ReachPrice(t, ids, p, a, q, a, cat.value);
      return Found((svc.value, original.value.catalogId, cat.value.price)), q, {};
    }

    /** The first statements the two calls have in common: reserve the key and deduct. `p` is
        the call at its start and `q0` the call now. */
    method Pay(tx: Tx, vendorId: int, userId: int, price: int, key: string, ghost p: Buyer, ghost q0: Buyer)
      returns (err: Option<Error>, ghost q: Buyer, ghost faults: set<Pc>)
      requires Valid() && tx.db == db && tx.writes == map[]
      requires Reaches(db.rows, SequenceIds(db.seqs), p, db.seqs, q0, db.seqs)
      requires q0.pc.Priced? && q0.writes == map[] && !q0.call.TopUp?
      requires q0.vendor == vendorId && q0.call.userId == userId && q0.price == price && CallKey(q0.call) == key
      modifies tx, db`seqs, db`mishaps
      ensures db.mishaps == old(db.mishaps) + Count(err == Some(Fault))
      ensures err != Some(Fault) ==> faults == {}
      ensures err.Some? ==> Ran(db.rows, old(db.seqs), p, faults, db.rows, db.seqs, Refused(err.value))
      ensures err == None ==>
                && db.seqs == old(db.seqs).(ledger := old(db.seqs.ledger) + 1)
                && Reaches(db.rows, SequenceIds(old(db.seqs)), p, old(db.seqs), q, db.seqs)
                && q == q0.(pc := Logged, wallet := q.wallet, ids := q.ids, locks := q.locks, writes := tx.writes)
                && faults == {}
    {
      ghost var t, a := db.rows, db.seqs;
      err := idempotency.ReserveTx(tx, vendorId, userId, key);
      if err.Some? {
        RefusesReserve(t, p, a, q0, err.value);
        return err, q0, FaultAt(q0, err.value);
      }
      ghost var r := ReachReserve(t, SequenceIds(a), p, a, q0, a);
      ghost var at;
      err, at := wallet.DeductTx(tx, userId, price);
      if err.Some? {
        faults := DeductFails(t, p, a, r, err.value, at);
        return err, r, faults;
      }
      q := Deducts(t, p, a, r);
      assert db.seqs == a.(ledger := a.ledger + 1);
      faults := {};
    }

    /** The last ones: insert the order, link the key to it and enqueue its job. */
    method Place(tx: Tx, vendorId: int, userId: int, catalogId: int, price: int, key: string,
                 ghost p: Buyer, ghost a: Seqs, ghost q0: Buyer)
      returns (r: Fetch<int>, ghost q: Buyer, ghost faults: set<Pc>)
      requires Valid() && tx.db == db && tx.writes == q0.writes
      requires Reaches(db.rows, SequenceIds(a), p, a, q0, db.seqs)
      requires a.order == db.seqs.order && a.job == db.seqs.job
      requires q0.pc.Logged? && !q0.call.TopUp?
      requires q0.vendor == vendorId && q0.call.userId == userId && q0.catalog == catalogId && q0.price == price
      requires CallKey(q0.call) == key
      modifies tx, db`seqs, db`mishaps
      ensures db.mishaps == old(db.mishaps) + Count(r == Err(Fault))
      ensures r.Err? ==> r.error == Fault
      ensures r.Err? ==> Ran(db.rows, a, p, faults, db.rows, db.seqs, Refused(r.error))
      ensures r.Found? ==>
                && Reaches(db.rows, SequenceIds(a), p, a, q, db.seqs)
                && q.ids.order == r.value && faults == {}
                && q == q0.(pc := Queued, ids := q.ids, writes := tx.writes, locks := q.locks)
    {
      ghost var t, ids := db.rows, SequenceIds(a);
      q, faults := q0, {};
      ghost var b := db.seqs;
      r := orders.CreateTx(
        tx, Order(vendorId, userId, catalogId, price, StateApproved, StatePending, key, None));
      if r.Err? {
        Faulted(t, p, a, q, b);
        return r, q, {q.pc};
      }
      q := ReachOrder(t, ids, p, a, q, b);
      b := db.seqs;
      var err := idempotency.LinkOrderTx(tx, vendorId, userId, key, r.value);
      if err.Some? {
        Faulted(t, p, a, q, b);
        return Err(err.value), q, {q.pc};
      }
      q := ReachLink(t, ids, p, a, q, b);
      err := jobs.EnqueueTx(tx, vendorId, r.value);
      if err.Some? {
        Faulted(t, p, a, q, b);
        return Err(err.value), q, {q.pc};
      }
      q := ReachEnqueue(t, ids, p, a, q, b);
    }

    /** Renew's last statement: the service's expiry moves on. */
    method Extend(tx: Tx, serviceId: int, days: int, ghost p: Buyer, ghost a: Seqs, ghost q0: Buyer)
      returns (err: Option<Error>, ghost q: Buyer, ghost faults: set<Pc>)
      requires Valid() && tx.db == db && tx.writes == q0.writes && tx.began == q0.began
      requires Reaches(db.rows, SequenceIds(a), p, a, q0, db.seqs)
      requires q0.pc.Queued? && q0.call.Renew? && q0.call.serviceId == serviceId && q0.days == days
      modifies tx, db`mishaps
      ensures db.mishaps == old(db.mishaps) + Count(err.Some?)
      ensures err == None || err == Some(Fault)
      ensures err.Some? ==> Ran(db.rows, a, p, faults, db.rows, db.seqs, Refused(Fault))
      ensures err == None ==>
                && Reaches(db.rows, SequenceIds(a), p, a, q, db.seqs)
                && q == q0.(pc := Extended, writes := tx.writes) && faults == {}
    {
      q, faults := q0, {};
      err := proxy.ExtendExpiryTx(tx, serviceId, days);
      if err.Some? {
        Faulted(db.rows, p, a, q, db.seqs);
        return err, q, {q.pc};
      }
      q := ReachExtend(db.rows, SequenceIds(a), p, a, q, db.seqs);
    }

    /** The commit. When only its acknowledgement is lost, the order stands and the caller hears of
        an error. */
    method Finish(tx: Tx, orderId: int, ghost p: Buyer, ghost a: Seqs, ghost q: Buyer)
      returns (reply: Reply, ghost faults: set<Pc>)
      requires Valid() && tx.db == db && tx.writes == q.writes && q.ids.order == orderId
      requires Reaches(db.rows, SequenceIds(a), p, a, q, db.seqs)
      requires (q.pc.Queued? && !q.call.Renew?) || q.pc.Extended?
      modifies tx, db`rows, db`mishaps
      ensures Ended(old(db.rows), a, p, faults, db.rows, db.seqs, reply)
      ensures db.mishaps == old(db.mishaps) + Count(reply == Refused(Fault))
      ensures reply != Refused(Fault) ==> faults == {}
    {
      Commits(db.rows, p, a, q, db.seqs);
      Faulted(db.rows, p, a, q, db.seqs);
      assert Draw(db.seqs, q) == db.seqs;
      var err;
      ghost var took;
      err, took := tx.Commit();
      EndsByCommit(old(db.rows), a, p, q.pc, q.writes, db.seqs, Placed(orderId, StateApproved, StatePending, false),
                   took, err.None?);
      if err.Some? {
        tx.Rollback();
        return Refused(err.value), if took then {} else {q.pc};
      }
      return Placed(orderId, StateApproved, StatePending, false), {};
    }
  }
}
