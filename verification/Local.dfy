/** What each process knows about the committed tables at each point of its call, and the
    write set and locks its transaction has there. */
module Local {
  import opened Schema
  import opened Repository
  import opened Calls
  import opened Isolation
  import W = Workers

  predicate OnPath(p: Buyer) {
    match p.call
    case Create(_, _, _, _) => !p.pc.ServiceRead? && !p.pc.OrderRead? && !p.pc.Extended?
    case Renew(_, _, _) => !p.pc.Hit? && !p.pc.Resolved?
    case TopUp(_, _) => p.pc.Start? || p.pc.WalletLocked? || p.pc.Debited? || p.pc.Logged?
  }

  function Touched(p: Buyer): set<Addr> {
    var r := Rank(p.pc);
    (if !p.call.TopUp? && r >= 4 then {KeyOf(p)} else {}) +
    (if r >= 6 then {WalletAt(p.wallet)} else {}) +
    (if r >= 7 then {LedgerAt(p.ids.ledger)} else {}) +
    (if r >= 8 then {OrderAt(p.ids.order)} else {}) +
    (if r >= 10 then {JobAt(p.ids.job)} else {}) +
    (if p.call.Renew? && r >= 11 then {ServiceAt(p.call.serviceId)} else {})
  }

  /** The write set of the open transaction, in terms of the committed tables. */
  ghost predicate WritesInv(t: Tables, p: Buyer) {
    var r := Rank(p.pc);
    && p.writes.Keys == Touched(p)
    && (!p.call.TopUp? && r >= 4 ==> p.writes[KeyOf(p)] == KeyRow(if r >= 9 then Some(p.ids.order) else None))
    && (r >= 6 ==>
          && HasWallet(t, p.wallet)
          && var row := WalletIn(t, p.wallet);
             p.writes[WalletAt(p.wallet)] == WalletRow(row.(balance := NewBalance(p, row.balance))))
    && (r >= 7 ==> p.writes[LedgerAt(p.ids.ledger)] == LedgerRow(EntryOf(p)))
    && (r >= 8 ==> p.writes[OrderAt(p.ids.order)] == OrderRow(OrderOf(p)))
    && (r >= 10 ==> p.writes[JobAt(p.ids.job)] == JobRow(JobOf(p)))
    && (p.call.Renew? && r >= 11 ==>
          && HasService(t, p.call.serviceId)
          && p.writes[ServiceAt(p.call.serviceId)] == ServiceRow(Renewed(ServiceIn(t, p.call.serviceId), p)))
  }

  function LocksAt(p: Buyer): set<Addr> {
    var r := Rank(p.pc);
    (if p.call.Renew? && r >= 1 then {ServiceAt(p.call.serviceId)} else {}) +
    (if !p.call.TopUp? && r >= 4 then {KeyOf(p)} else {}) +
    (if r >= 5 then {WalletAt(p.wallet)} else {}) +
    (if r >= 7 then {LedgerAt(p.ids.ledger)} else {}) +
    (if r >= 8 then {OrderAt(p.ids.order)} else {}) +
    (if r >= 10 then {JobAt(p.ids.job)} else {})
  }

  ghost predicate CreateFacts(t: Tables, p: Buyer)
    requires p.call.Create?
  {
    && p.call.key != ""
    && (p.pc.Hit? ==>
          && p.vendor == p.call.vendorId
          && p.ref != 0
          && var k := KeyAt(p.call.vendorId, p.call.userId, p.call.key);
             k in t && t[k] == KeyRow(Some(p.ref)))
    && (Rank(p.pc) >= 3 ==>
          && p.vendor == p.call.vendorId && p.catalog == p.call.catalogId
          && PriceOf(t, p.vendor, p.catalog).Some?
          && ItemIn(t, p.catalog).price == p.price && ItemIn(t, p.catalog).active)
  }

  ghost predicate RenewFacts(t: Tables, p: Buyer)
    requires p.call.Renew?
  {
    && (Rank(p.pc) >= 1 ==>
          && ServiceForUser(t, p.call.serviceId, p.call.userId).Some?
          && var row := ServiceIn(t, p.call.serviceId);
             row.vendorId == p.vendor && row.orderId == Some(p.ref) && row.days == p.days)
    && (Rank(p.pc) >= 2 ==>
          && OrderById(t, p.vendor, p.ref).Some?
          && OrderIn(t, p.ref).catalogId == p.catalog)
    && (Rank(p.pc) >= 3 ==>
          && PriceOf(t, p.vendor, p.catalog).Some?
          && ItemIn(t, p.catalog).price == p.price)
  }

  /** Facts of the purchase that hold from the reservation of the key, or from the locked read
      of the wallet, until the transaction ends. */
  ghost predicate TailFacts(t: Tables, p: Buyer) {
    && (Rank(p.pc) >= 4 && !p.call.TopUp? ==> KeyOf(p) !in t)
    && (Rank(p.pc) >= 5 ==>
          && WalletOf(t, p.call.userId) == Some(p.wallet)
          && (!p.call.TopUp? ==> p.price <= WalletIn(t, p.wallet).balance))
    && (Rank(p.pc) >= 6 ==> IsInt64(NewBalance(p, WalletIn(t, p.wallet).balance)))
    && (Rank(p.pc) >= 7 ==> LedgerAt(p.ids.ledger) !in t)
    && (Rank(p.pc) >= 8 ==> OrderAt(p.ids.order) !in t)
    && (Rank(p.pc) >= 10 ==> JobAt(p.ids.job) !in t)
  }

  ghost predicate BuyerInv(t: Tables, p: Buyer) {
    && OnPath(p)
    && (p.call.Create? && !p.pc.Start? ==> CreateFacts(t, p))
    && (p.call.Renew? ==> RenewFacts(t, p))
    && (p.call.TopUp? ==> IsInt64(p.call.amount))
    && TailFacts(t, p)
    && WritesInv(t, p)
    && p.locks == LocksAt(p)
  }

  lemma CreateStays(t: Tables, u: Tables, p: Buyer)
    requires p.call.Create? && CreateFacts(t, p)
    requires Preserves(t, u, p.locks)
    ensures CreateFacts(u, p)
  {
  }

  lemma RenewStays(t: Tables, u: Tables, p: Buyer)
    requires p.call.Renew? && RenewFacts(t, p)
    requires Preserves(t, u, p.locks)
    ensures RenewFacts(u, p)
  {
  }

  lemma WalletRowStays(t: Tables, u: Tables, p: Buyer)
    requires Rank(p.pc) >= 5 && WalletAt(p.wallet) in p.locks
    requires WalletOf(t, p.call.userId) == Some(p.wallet)
    requires Preserves(t, u, p.locks)
    ensures WalletOf(u, p.call.userId) == Some(p.wallet)
    ensures HasWallet(t, p.wallet) && HasWallet(u, p.wallet) && WalletIn(u, p.wallet) == WalletIn(t, p.wallet)
  {
    WalletStays(t, u, p.locks, p.call.userId);
  }

  lemma TailStays(t: Tables, u: Tables, p: Buyer)
    requires TailFacts(t, p) && p.locks == LocksAt(p)
    requires Preserves(t, u, p.locks)
    ensures TailFacts(u, p)
  {
    var r := Rank(p.pc);
    if r >= 5 {
      WalletRowStays(t, u, p);
    }
    assert r >= 4 && !p.call.TopUp? ==> KeyOf(p) in p.locks;
    assert r >= 7 ==> LedgerAt(p.ids.ledger) in p.locks;
    assert r >= 8 ==> OrderAt(p.ids.order) in p.locks;
    assert r >= 10 ==> JobAt(p.ids.job) in p.locks;
  }

  lemma WritesStay(t: Tables, u: Tables, p: Buyer)
    requires WritesInv(t, p) && p.locks == LocksAt(p)
    requires TailFacts(t, p)
    requires p.call.Renew? ==> RenewFacts(t, p)
    requires Preserves(t, u, p.locks)
    ensures WritesInv(u, p)
  {
  }

  /** What a buyer knows, and what it has written, survives every commit of the others. */
  lemma BuyerStays(t: Tables, u: Tables, p: Buyer)
    requires BuyerInv(t, p)
    requires Preserves(t, u, p.locks)
    ensures BuyerInv(u, p)
  {
    if p.call.Create? && !p.pc.Start? {
      CreateStays(t, u, p);
    }
    if p.call.Renew? {
      RenewStays(t, u, p);
    }
    TailStays(t, u, p);
    WritesStay(t, u, p);
  }

  lemma TouchedHeld(p: Buyer)
    requires OnPath(p)
    ensures Touched(p) <= LocksAt(p)
  {
  }

  lemma BuyerKeepsCore(t: Tables, p: Buyer, a: Addr)
    requires TailFacts(t, p) && WritesInv(t, p)
    requires a in p.writes && a in t
    ensures SameCore(t[a], p.writes[a])
    ensures a.WalletAt? ==> a.id == p.wallet
  {
  }

  /** A buyer writes only what it has locked. */
  lemma BuyerCovered(t: Tables, p: Buyer)
    requires BuyerInv(t, p)
    ensures Covered(t, p.writes, p.locks)
  {
    TouchedHeld(p);
    forall a | a in p.writes && a in t
      ensures SameCore(t[a], p.writes[a])
    {
      BuyerKeepsCore(t, p, a);
    }
    forall x | WalletAt(x) in p.writes
      ensures WalletAt(x) in t
    {
      assert WalletAt(x) in Touched(p);
    }
  }

  predicate Underway(w: W.Worker) {
    !w.stage.Erred? && !w.stage.Counted?
  }

  function WorkLocks(w: W.Worker): set<Addr> {
    (if w.stage.ServiceInserted? || w.stage.Joined? then {ServiceAt(w.svc)} else {}) +
    (if w.stage.Joined? then {OrderAt(w.order)} else {})
  }

  ghost predicate WorkWrites(t: Tables, w: W.Worker) {
    && w.writes.Keys == WorkLocks(w)
    && (w.stage.ServiceInserted? || w.stage.Joined? ==> w.writes[ServiceAt(w.svc)] == ServiceRow(W.ServiceOf(w)))
    && (w.stage.Joined? ==>
          && HasOrder(t, w.order)
          && w.writes[OrderAt(w.order)] == OrderRow(OrderIn(t, w.order).(serviceId := Some(w.svc))))
  }

  ghost predicate WorkerInv(t: Tables, w: W.Worker) {
    && HasJob(t, w.job) && JobIn(t, w.job).vendorId == w.vendor && JobIn(t, w.job).orderId == w.order
    && (Underway(w) && !w.stage.Claimed? ==>
          && OrderById(t, w.vendor, w.order).Some?
          && OrderIn(t, w.order).userId == w.user && OrderIn(t, w.order).catalogId == w.catalog)
    && (Underway(w) && !w.stage.Claimed? && !w.stage.OrderLoaded? ==>
          w.panelVendor == w.vendor && FirstActive(t, w.vendor).Some?)
    && (Underway(w) && !w.stage.Claimed? && !w.stage.OrderLoaded? && !w.stage.PanelFound? ==>
          && HasItem(t, w.catalog)
          && var it := ItemIn(t, w.catalog);
             it.protocol == w.protocol && it.trafficGb == w.traffic && it.days == w.days)
    && (w.stage.ServiceInserted? || w.stage.Joined? ==> ServiceAt(w.svc) !in t)
    && w.locks == WorkLocks(w)
    && WorkWrites(t, w)
  }

  lemma WorkerStays(t: Tables, u: Tables, w: W.Worker)
    requires WorkerInv(t, w)
    requires Preserves(t, u, w.locks)
    ensures WorkerInv(u, w)
  {
  }

  lemma WorkerCovered(t: Tables, w: W.Worker)
    requires WorkerInv(t, w)
    ensures Covered(t, w.writes, w.locks)
  {
  }
}
