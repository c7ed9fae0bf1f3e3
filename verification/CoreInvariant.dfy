/** The invariant every step of the engine keeps: rows are well typed and issued by their
    sequences, no lock has two holders, and each process knows what its place in its call
    says it knows. */
module CoreInvariant {
  import opened Schema
  import opened Repository
  import opened Calls
  import opened Isolation
  import opened Local
  import opened Engine

  ghost predicate RowsIssued(t: Tables, q: Seqs) {
    forall a :: a in t ==> Typed(a, t[a]) && Issued(q, a)
  }

  /** Service, wallet and key locks are asked for; the other rows in use are all issued. */
  ghost predicate LocksIssued(procs: map<int, Proc>, q: Seqs) {
    forall tid, a :: tid in procs && a in LocksOf(procs[tid]) ==> Issued(q, a)
  }

  ghost predicate Exclusive(procs: map<int, Proc>) {
    forall a, b, l :: a in procs && b in procs && a != b && l in LocksOf(procs[a]) ==> l !in LocksOf(procs[b])
  }

  ghost predicate ProcInv(t: Tables, p: Proc) {
    match p
    case Buying(b) => BuyerInv(t, b)
    case Working(w) => WorkerInv(t, w)
    case _ => true
  }

  ghost predicate Core(s: State) {
    && Later(FIRST_IDS, s.seqs)
    && RowsIssued(s.db, s.seqs)
    && LocksIssued(s.procs, s.seqs)
    && Exclusive(s.procs)
    && (forall tid :: tid in s.procs ==> ProcInv(s.db, s.procs[tid]))
  }

  lemma ProcStays(t: Tables, u: Tables, p: Proc)
    requires ProcInv(t, p)
    requires Preserves(t, u, LocksOf(p))
    ensures ProcInv(u, p)
  {
    match p
    case Buying(b) => BuyerStays(t, u, b);
    case Working(w) => WorkerStays(t, u, w);
    case _ =>
  }

  /** The ids a call will insert under belong to no committed row. */
  ghost predicate FreshIds(t: Tables, ids: Ids, call: Call) {
    LedgerAt(ids.ledger) !in t && (!call.TopUp? ==> OrderAt(ids.order) !in t && JobAt(ids.job) !in t)
  }

  /** The lock one statement adds, beyond the one it asks for: that of a row it inserts. */
  function Inserted(ids: Ids, p: Buyer): set<Addr> {
    match p.pc
    case Debited => {LedgerAt(ids.ledger)}
    case Logged => if p.call.TopUp? then {} else {OrderAt(ids.order)}
    case Linked => {JobAt(ids.job)}
    case _ => {}
  }

  function Asked(t: Tables, p: Buyer): set<Addr> {
    if Requests(t, p).Some? then {Requests(t, p).value} else {}
  }

  lemma BuyerLookup(t: Tables, p: Buyer)
    requires BuyerInv(t, p) && Rank(p.pc) < 3
    requires Lookup(t, p).Continue?
    ensures BuyerInv(t, Lookup(t, p).next)
    ensures Lookup(t, p).next.locks == p.locks + Asked(t, p)
  {
  }

  lemma AfterReserve(t: Tables, p: Buyer)
    requires BuyerInv(t, p) && p.pc.Priced?
    requires ReserveKey(t + p.writes, p).Continue?
    ensures BuyerInv(t, ReserveKey(t + p.writes, p).next)
    ensures ReserveKey(t + p.writes, p).next.locks == p.locks + Asked(t, p)
  {
  }

  lemma AfterLockWallet(t: Tables, p: Buyer)
    requires BuyerInv(t, p) && p.pc.Reserved?
    requires LockWallet(t + p.writes, p).Continue?
    ensures BuyerInv(t, LockWallet(t + p.writes, p).next)
    ensures LockWallet(t + p.writes, p).next.locks == p.locks + Asked(t, p)
  {
    assert WalletsOf(t + p.writes, p.call.userId) == WalletsOf(t, p.call.userId);
  }

  lemma AfterUpdate(t: Tables, p: Buyer)
    requires BuyerInv(t, p) && p.pc.WalletLocked?
    requires UpdateBalance(t + p.writes, p).Continue?
    ensures BuyerInv(t, UpdateBalance(t + p.writes, p).next)
    ensures UpdateBalance(t + p.writes, p).next.locks == p.locks
  {
  }

  lemma AfterLedger(t: Tables, ids: Ids, p: Buyer)
    requires BuyerInv(t, p) && p.pc.Debited?
    requires FreshIds(t, ids, p.call)
    ensures BuyerInv(t, InsertLedger(ids, p).next)
    ensures InsertLedger(ids, p).next.locks == p.locks + Inserted(ids, p)
  {
  }

  lemma AfterOrder(t: Tables, ids: Ids, p: Buyer)
    requires BuyerInv(t, p) && p.pc.Logged? && !p.call.TopUp?
    requires FreshIds(t, ids, p.call)
    ensures BuyerInv(t, InsertOrder(ids, p).next)
    ensures InsertOrder(ids, p).next.locks == p.locks + Inserted(ids, p)
  {
  }

  lemma LinkWrites(t: Tables, p: Buyer, next: Buyer)
    requires WritesInv(t, p) && p.pc.Ordered? && !p.call.TopUp?
    requires LinkKey(t + p.writes, p) == Continue(next)
    ensures WritesInv(t, next)
    ensures next == p.(pc := Linked, writes := next.writes)
  {
    assert KeyOf(p) in t + p.writes;
  }

  lemma AfterLink(t: Tables, p: Buyer)
    requires BuyerInv(t, p) && p.pc.Ordered?
    ensures BuyerInv(t, LinkKey(t + p.writes, p).next)
    ensures LinkKey(t + p.writes, p).next.locks == p.locks
  {
    LinkWrites(t, p, LinkKey(t + p.writes, p).next);
  }

  lemma AfterEnqueue(t: Tables, ids: Ids, p: Buyer)
    requires BuyerInv(t, p) && p.pc.Linked?
    requires FreshIds(t, ids, p.call)
    ensures BuyerInv(t, EnqueueJob(ids, p).next)
    ensures EnqueueJob(ids, p).next.locks == p.locks + Inserted(ids, p)
  {
  }

  lemma ExtendWrites(t: Tables, p: Buyer, next: Buyer)
    requires WritesInv(t, p) && p.pc.Queued? && p.call.Renew? && HasService(t, p.call.serviceId)
    requires ExtendExpiry(t + p.writes, p) == Continue(next)
    ensures WritesInv(t, next)
    ensures next == p.(pc := Extended, writes := next.writes)
  {
    var view := t + p.writes;
    assert HasService(view, p.call.serviceId) && ServiceIn(view, p.call.serviceId) == ServiceIn(t, p.call.serviceId);
  }

  lemma AfterExtend(t: Tables, p: Buyer)
    requires BuyerInv(t, p) && p.pc.Queued? && p.call.Renew?
    ensures BuyerInv(t, ExtendExpiry(t + p.writes, p).next)
    ensures ExtendExpiry(t + p.writes, p).next.locks == p.locks
  {
    assert HasService(t, p.call.serviceId);
    ExtendWrites(t, p, ExtendExpiry(t + p.writes, p).next);
  }

  lemma PaymentStep(t: Tables, ids: Ids, p: Buyer)
    requires BuyerInv(t, p) && 3 <= Rank(p.pc) < 6
    requires Purchase(t, ids, p).Continue?
    ensures BuyerInv(t, Purchase(t, ids, p).next)
    ensures Purchase(t, ids, p).next.locks == p.locks + Asked(t, p)
  {
    match p.pc
    case Priced => AfterReserve(t, p);
    case Reserved => AfterLockWallet(t, p);
    case WalletLocked => AfterUpdate(t, p);
  }

  lemma RecordStep(t: Tables, ids: Ids, p: Buyer)
    requires BuyerInv(t, p) && 6 <= Rank(p.pc) < 9
    requires Purchase(t, ids, p).Continue?
    requires FreshIds(t, ids, p.call)
    ensures BuyerInv(t, Purchase(t, ids, p).next)
    ensures Purchase(t, ids, p).next.locks == p.locks + Inserted(ids, p)
  {
    match p.pc
    case Debited => AfterLedger(t, ids, p);
    case Logged => AfterOrder(t, ids, p);
    case Ordered => AfterLink(t, p);
  }

  lemma EnqueueStep(t: Tables, ids: Ids, p: Buyer)
    requires BuyerInv(t, p) && 9 <= Rank(p.pc)
    requires Purchase(t, ids, p).Continue?
    requires FreshIds(t, ids, p.call)
    ensures BuyerInv(t, Purchase(t, ids, p).next)
    ensures Purchase(t, ids, p).next.locks == p.locks + Inserted(ids, p)
  {
    match p.pc
    case Linked => AfterEnqueue(t, ids, p);
    case Queued => AfterExtend(t, p);
  }

  lemma PurchaseStep(t: Tables, ids: Ids, p: Buyer)
    requires BuyerInv(t, p) && 3 <= Rank(p.pc)
    requires Purchase(t, ids, p).Continue?
    requires FreshIds(t, ids, p.call)
    ensures BuyerInv(t, Purchase(t, ids, p).next)
    ensures Purchase(t, ids, p).next.locks == p.locks + Asked(t, p) + Inserted(ids, p)
  {
    if Rank(p.pc) < 6 {
      PaymentStep(t, ids, p);
      assert Inserted(ids, p) == {};
    } else {
      assert Asked(t, p) == {};
      if Rank(p.pc) < 9 {
        RecordStep(t, ids, p);
      } else {
        EnqueueStep(t, ids, p);
      }
    }
  }

  lemma BuyerStep(t: Tables, ids: Ids, p: Buyer)
    requires BuyerInv(t, p)
    requires Statement(t, ids, p).Continue?
    requires FreshIds(t, ids, p.call)
    ensures BuyerInv(t, Statement(t, ids, p).next)
    ensures Statement(t, ids, p).next.locks == p.locks + Asked(t, p) + Inserted(ids, p)
  {
    if Rank(p.pc) < 3 {
      BuyerLookup(t, p);
    } else {
      PurchaseStep(t, ids, p);
    }
  }
}
