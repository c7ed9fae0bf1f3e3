/** What each kind of step does to the committed tables, row by row. */
module Effects {
  import opened Schema
  import opened Repository
  import opened Calls
  import opened Local
  import opened Engine
  import opened CoreInvariant
  import opened CoreSteps
  import opened Serializable
  import W = Workers

  function PurchaseRows(p: Buyer): set<Addr> {
    {KeyOf(p), WalletAt(p.wallet), LedgerAt(p.ids.ledger), OrderAt(p.ids.order), JobAt(p.ids.job)} +
    (if p.call.Renew? then {ServiceAt(p.call.serviceId)} else {})
  }

  /** `u` is `t` after the commit of a Create or Renew. */
  ghost predicate Buys(t: Tables, u: Tables, p: Buyer) {
    && !p.call.TopUp?
    && HasWallet(t, p.wallet) && WalletIn(t, p.wallet).userId == p.call.userId
    && p.price <= WalletIn(t, p.wallet).balance
    && KeyOf(p) !in t && OrderAt(p.ids.order) !in t && JobAt(p.ids.job) !in t && LedgerAt(p.ids.ledger) !in t
    && (forall a :: a !in PurchaseRows(p) ==> (a in u <==> a in t) && (a in t ==> u[a] == t[a]))
    && PurchaseRows(p) <= u.Keys
    && u[KeyOf(p)] == KeyRow(Some(p.ids.order))
    && u[WalletAt(p.wallet)] == WalletRow(Wallet(p.call.userId, WalletIn(t, p.wallet).balance - p.price))
    && u[LedgerAt(p.ids.ledger)] == LedgerRow(LedgerEntry(p.wallet, p.call.userId, Neg64(p.price), OrderDebit))
    && u[OrderAt(p.ids.order)] == OrderRow(OrderOf(p))
    && u[JobAt(p.ids.job)] == JobRow(JobOf(p))
    && (p.call.Renew? ==>
          && HasService(t, p.call.serviceId)
          && u[ServiceAt(p.call.serviceId)] == ServiceRow(Renewed(ServiceIn(t, p.call.serviceId), p)))
  }

  /** `u` is `t` after the commit of an ApplyTransaction. */
  ghost predicate Deposits(t: Tables, u: Tables, p: Buyer) {
    && p.call.TopUp?
    && HasWallet(t, p.wallet) && WalletIn(t, p.wallet).userId == p.call.userId
    && LedgerAt(p.ids.ledger) !in t
    && (forall a :: a != WalletAt(p.wallet) && a != LedgerAt(p.ids.ledger) ==>
        (a in u <==> a in t) && (a in t ==> u[a] == t[a]))
    && WalletAt(p.wallet) in u && LedgerAt(p.ids.ledger) in u
    && u[WalletAt(p.wallet)] == WalletRow(Wallet(p.call.userId, WalletIn(t, p.wallet).balance + p.call.amount))
    && u[LedgerAt(p.ids.ledger)] == LedgerRow(LedgerEntry(p.wallet, p.call.userId, p.call.amount, AdminTopup))
  }

  lemma CommitBuys(t: Tables, p: Buyer)
    requires TailFacts(t, p) && WritesInv(t, p) && Ready(p) && !p.call.TopUp?
    ensures Buys(t, t + p.writes, p)
  {
  }

  lemma CommitDeposits(t: Tables, p: Buyer)
    requires TailFacts(t, p) && WritesInv(t, p) && Ready(p) && p.call.TopUp?
    ensures Deposits(t, t + p.writes, p)
  {
  }

  lemma AdvanceEffect(s: State, s': State, tid: int, p: Buyer, heard: bool)
    requires Core(s) && tid in s.procs && s.procs[tid] == Buying(p)
    requires AdvanceBuyer(s, tid, p, heard) == Some(s')
    ensures !Ready(p) ==> s'.db == s.db
    ensures Ready(p) && !p.call.TopUp? ==> Buys(s.db, s'.db, p)
    ensures Ready(p) && p.call.TopUp? ==> Deposits(s.db, s'.db, p)
  {
    assert BuyerInv(s.db, p);
    OnlyReadyCommits(s.db, SequenceIds(s.seqs), p);
    if Ready(p) {
      if p.call.TopUp? {
        CommitDeposits(s.db, p);
      } else {
        CommitBuys(s.db, p);
      }
    }
  }

  /** Rows of accounts, keys and orders: the same rows, with the same core columns; only an
      order's service link may differ. */
  ghost predicate SameBooks(t: Tables, u: Tables) {
    && (forall a: Addr :: a.WalletAt? || a.LedgerAt? || a.KeyAt? ==> (a in u <==> a in t) && (a in t ==> u[a] == t[a]))
    && (forall a: Addr :: a.OrderAt? ==> (a in u <==> a in t) && (a in t ==> SameCore(t[a], u[a])))
  }

  lemma OverlaySameBooks(t: Tables, w: Tables)
    requires forall a :: a in w ==> !a.WalletAt? && !a.LedgerAt? && !a.KeyAt?
    requires forall a :: a in w && a.OrderAt? ==> a in t && SameCore(t[a], w[a])
    ensures SameBooks(t, t + w)
  {
  }

  lemma WorkSameBooks(s: State, s': State, tid: int, w: W.Worker, answer: Option<int>, heard: bool)
    requires Core(s) && tid in s.procs && s.procs[tid] == Working(w)
    requires AdvanceWorker(s, tid, w, answer, heard) == Some(s')
    ensures SameBooks(s.db, s'.db)
  {
    assert ProcInv(s.db, s.procs[tid]);
    var out := W.WorkStatement(s.db, s.seqs.service, answer, w);
    if out.Durable? {
      JoinedSameBooks(s.db, w);
    } else if out.Finished? {
      EndSameBooks(s.db, s.seqs.service, answer, w, out.writes);
    }
  }

  lemma EndSameBooks(t: Tables, newService: int, answer: Option<int>, w: W.Worker, writes: Tables)
    requires WorkerInv(t, w) && W.WorkStatement(t, newService, answer, w) == W.Finished(writes)
    ensures SameBooks(t, t + writes)
  {
    WorkerEnds(t, newService, answer, w, writes);
    OverlaySameBooks(t, writes);
  }

  lemma JoinedSameBooks(t: Tables, w: W.Worker)
    requires WorkWrites(t, w)
    ensures SameBooks(t, t + w.writes)
  {
  }

  lemma ClaimSameBooks(s: State, s': State, tid: int)
    requires ClaimNext(s, tid) == Some(s')
    ensures SameBooks(s.db, s'.db)
  {
  }

  lemma RegisterSameBooks(s: State, s': State, tid: int, email: string)
    requires RegisterUser(s, tid, email) == Some(s')
    ensures SameBooks(s.db, s'.db)
  {
  }

  lemma ProvisionSameBooks(s: State, s': State, tid: int, row: Service)
    requires ProvisionService(s, tid, row) == Some(s')
    ensures SameBooks(s.db, s'.db)
  {
  }

  lemma StatusSameBooks(s: State, s': State, tid: int, v: int, sid: int, status: ServiceStatus)
    requires UpdateStatus(s, tid, v, sid, status) == Some(s')
    ensures SameBooks(s.db, s'.db)
  {
  }

  lemma CatalogSameBooks(s: State, item: Item, panel: Panel)
    ensures InsertItem(s, item).Some? ==> SameBooks(s.db, InsertItem(s, item).value.db)
    ensures SameBooks(s.db, InsertPanel(s, panel).db)
  {
  }

  lemma SweepSameBooks(s: State, s': State, at: int)
    requires SweepExpired(s, at) == Some(s')
    ensures SameBooks(s.db, s'.db)
  {
  }

  /** The steps that write a service or job row, but for a call's commit. */
  predicate WritesWork(l: Label) {
    l.Work? || l.Claim? || l.Provision? || l.PanelReply? || l.SetStatus? || l.Sweep?
  }

  lemma WorkStepSameBooks(s: State, l: Label, s': State)
    requires Core(s)
    requires Next(s, l) == Some(s') && WritesWork(l)
    ensures SameBooks(s.db, s'.db)
  {
    match l
    case Work(tid, answer, heard) => WorkSameBooks(s, s', tid, s.procs[tid].worker, answer, heard);
    case Claim(tid) => ClaimSameBooks(s, s', tid);
    case Provision(tid, v, u, order, protocol, traffic, days) =>
      ProvisionSameBooks(s, s', tid,
                         Service(v, u, order, protocol, Provisioning, Some(s.clock + days * DAY), traffic, days));
    case PanelReply(tid, ok) =>
      StatusSameBooks(s, s', tid, s.procs[tid].vendor, s.procs[tid].svc, if ok then Active else ProvisionFailed);
    case SetStatus(tid) =>
      StatusSameBooks(s, s', tid, s.procs[tid].vendor, s.procs[tid].svc, s.procs[tid].target);
    case Sweep(at) => SweepSameBooks(s, s', at);
  }

  /** Only purchases, deposits and new wallets change the books. */
  lemma QuietStep(s: State, l: Label, s': State)
    requires Core(s)
    requires Next(s, l) == Some(s')
    requires !l.Advance? && !l.EnsureWallet?
    ensures SameBooks(s.db, s'.db)
  {
    if WritesWork(l) {
      WorkStepSameBooks(s, l, s');
    } else {
      OtherStepSameBooks(s, l, s');
    }
  }

  lemma OtherStepSameBooks(s: State, l: Label, s': State)
    requires Next(s, l) == Some(s')
    requires !l.Advance? && !l.EnsureWallet? && !WritesWork(l)
    ensures SameBooks(s.db, s'.db)
  {
    match l
    case Register(tid, email) => RegisterSameBooks(s, s', tid, email);
    case AddItem(item) => CatalogSameBooks(s, item, Panel(0, false));
    case AddPanel(panel) => CatalogSameBooks(s, Item(0, "", 0, 0, 0, false), panel);
    case _ =>
  }

  lemma QuietRows(t: Tables, u: Tables)
    requires SameBooks(t, u)
    ensures forall w :: (HasWallet(u, w) <==> HasWallet(t, w)) && (HasWallet(t, w) ==> WalletIn(u, w) == WalletIn(t, w))
    ensures forall e :: (HasEntry(u, e) <==> HasEntry(t, e)) && (HasEntry(t, e) ==> EntryIn(u, e) == EntryIn(t, e))
    ensures forall o :: (HasOrder(u, o) ==> HasOrder(t, o))
    ensures forall o :: HasOrder(t, o) ==>
            HasOrder(u, o) && OrderIn(u, o) == OrderIn(t, o).(serviceId := OrderIn(u, o).serviceId)
  {
  }

  lemma OthersLogWrites(s: State, l: Label, s': State)
    requires Next(s, l) == Some(s') && !l.Advance?
    ensures s.log <= s'.log && forall i :: |s.log| <= i < |s'.log| ==> !s'.log[i].Bought?
  {
  }

  lemma AdvanceLogs(s: State, s': State, tid: int, p: Buyer, heard: bool)
    requires Core(s) && tid in s.procs && s.procs[tid] == Buying(p)
    requires AdvanceBuyer(s, tid, p, heard) == Some(s')
    ensures s'.log == if Ready(p) then s.log + [Bought(tid, p.call, p.ids, p.began)] else s.log
  {
    assert BuyerInv(s.db, p);
    OnlyReadyCommits(s.db, SequenceIds(s.seqs), p);
  }
}
