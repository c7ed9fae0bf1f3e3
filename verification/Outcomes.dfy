/** Exactly when a call that runs alone succeeds, and what it then leaves in the tables. */
module Outcomes {
  import opened Schema
  import opened Repository
  import opened Calls
  import opened Local
  import opened CoreInvariant
  import opened Effects
  import opened Sequential
  import opened Serializable

  /** The user's wallet covers the price, and paying keeps the balance an int64. */
  ghost predicate Affords(t: Tables, userId: int, price: int) {
    && WalletOf(t, userId).Some?
    && var balance := WalletIn(t, WalletOf(t, userId).value).balance;
       price <= balance && IsInt64(balance - price)
  }

  /** What a call needs of the tables. */
  ghost predicate Accepts(t: Tables, call: Call) {
    match call
    case Create(v, u, c, key) =>
      && key != "" && KeyAt(v, u, key) !in t
      && HasItem(t, c) && ItemIn(t, c).vendorId == v && ItemIn(t, c).active
      && Affords(t, u, ItemIn(t, c).price)
    case Renew(u, sid, key) =>
      && HasService(t, sid) && ServiceIn(t, sid).userId == u && ServiceIn(t, sid).orderId.Some?
      && var v := ServiceIn(t, sid).vendorId;
         var o := ServiceIn(t, sid).orderId.value;
         && KeyAt(v, u, key) !in t
         && HasOrder(t, o) && OrderIn(t, o).vendorId == v
         && HasItem(t, OrderIn(t, o).catalogId) && ItemIn(t, OrderIn(t, o).catalogId).vendorId == v
         && Affords(t, u, ItemIn(t, OrderIn(t, o).catalogId).price)
    case TopUp(u, amount) =>
      && WalletOf(t, u).Some?
      && IsInt64(WalletIn(t, WalletOf(t, u).value).balance + amount)
  }

  /** The write set a purchase ends with. */
  function PurchaseWrites(p: Buyer, balance: int, extended: Tables): Tables {
    map[KeyOf(p) := KeyRow(Some(p.ids.order)),
        WalletAt(p.wallet) := WalletRow(Wallet(p.call.userId, NewBalance(p, balance))),
        LedgerAt(p.ids.ledger) := LedgerRow(EntryOf(p)),
        OrderAt(p.ids.order) := OrderRow(OrderOf(p)),
        JobAt(p.ids.job) := JobRow(JobOf(p))] + extended
  }

  function DepositWrites(p: Buyer, balance: int): Tables {
    map[WalletAt(p.wallet) := WalletRow(Wallet(p.call.userId, NewBalance(p, balance))),
        LedgerAt(p.ids.ledger) := LedgerRow(EntryOf(p))]
  }

  ghost function FinishedCreate(t: Tables, ids: Ids, call: Call, began: int): (p: Buyer)
    requires call.Create? && Accepts(t, call) && FreshIds(t, ids, call)
    ensures BuyerInv(t, p) && Ready(p) && p.call == call && p.began == began && p.ids == ids
  {
    var w := WalletOf(t, call.userId).value;
    var p := Buyer(call, Queued, began, call.vendorId, call.catalogId, ItemIn(t, call.catalogId).price, 0, 0,
                   w, ids, map[], {});
    p.(writes := PurchaseWrites(p, WalletIn(t, w).balance, map[]), locks := LocksAt(p))
  }

  ghost function FinishedRenew(t: Tables, ids: Ids, call: Call, began: int): (p: Buyer)
    requires call.Renew? && Accepts(t, call) && FreshIds(t, ids, call)
    ensures BuyerInv(t, p) && Ready(p) && p.call == call && p.began == began && p.ids == ids
  {
    var w := WalletOf(t, call.userId).value;
    var row := ServiceIn(t, call.serviceId);
    var c := OrderIn(t, row.orderId.value).catalogId;
    var p := Buyer(call, Extended, began, row.vendorId, c, ItemIn(t, c).price, row.days, row.orderId.value,
                   w, ids, map[], {});
    RenewalWrites(t, p);
    p.(writes := PurchaseWrites(p, WalletIn(t, w).balance,
                                map[ServiceAt(call.serviceId) := ServiceRow(Renewed(row, p))]),
       locks := LocksAt(p))
  }

  lemma RenewalWrites(t: Tables, p: Buyer)
    requires p.call.Renew? && p.pc.Extended? && HasService(t, p.call.serviceId)
    requires HasWallet(t, p.wallet) && WalletIn(t, p.wallet).userId == p.call.userId
    ensures var extended := ServiceRow(Renewed(ServiceIn(t, p.call.serviceId), p));
            WritesInv(t, p.(writes := PurchaseWrites(p, WalletIn(t, p.wallet).balance,
                                                     map[ServiceAt(p.call.serviceId) := extended]),
                            locks := LocksAt(p)))
  {
  }

  ghost function FinishedTopUp(t: Tables, ids: Ids, call: Call, began: int): (p: Buyer)
    requires call.TopUp? && IsInt64(call.amount) && Accepts(t, call) && FreshIds(t, ids, call)
    ensures BuyerInv(t, p) && Ready(p) && p.call == call && p.began == began && p.ids == ids
  {
    var w := WalletOf(t, call.userId).value;
    var p := Buyer(call, Logged, began, 0, 0, 0, 0, 0, w, ids, map[], {});
    p.(writes := DepositWrites(p, WalletIn(t, w).balance), locks := LocksAt(p))
  }

  /** The end of the run of a call whose needs are met. */
  ghost function FinishedCall(t: Tables, ids: Ids, call: Call, began: int): (p: Buyer)
    requires (call.TopUp? ==> IsInt64(call.amount)) && Accepts(t, call) && FreshIds(t, ids, call)
    ensures BuyerInv(t, p) && Ready(p) && p.call == call && p.began == began && p.ids == ids
  {
    match call
    case Create(_, _, _, _) => FinishedCreate(t, ids, call, began)
    case Renew(_, _, _) => FinishedRenew(t, ids, call, began)
    case TopUp(_, _) => FinishedTopUp(t, ids, call, began)
  }

  /** A call that has come this far had its needs met. */
  lemma ReadyAccepted(t: Tables, p: Buyer)
    requires BuyerInv(t, p) && Ready(p)
    ensures Accepts(t, p.call)
  {
  }

  lemma SuccessGoesOn(t: Tables, ids: Ids, q: Buyer)
    requires OnPath(q) && !Ready(q) && Successful(Solo(t, ids, q, {}).reply)
    ensures Statement(t, ids, q).Continue?
    ensures var next := Statement(t, ids, q).next;
            next.call == q.call && Solo(t, ids, next, {}) == Solo(t, ids, q, {})
  {
    OnlyReadyCommits(t, ids, q);
    ReturnsDuplicate(t, ids, q);
    if Statement(t, ids, q).Continue? {
      SameCall(t, ids, q);
    }
  }

  /** The call is on its way, on these tables, to this successful end. */
  ghost predicate Succeeding(t: Tables, ids: Ids, q: Buyer, r: Result) {
    BuyerInv(t, q) && FreshIds(t, ids, q.call) && Successful(r.reply) && Solo(t, ids, q, {}) == r
  }

  lemma SuccessStep(t: Tables, ids: Ids, q: Buyer, r: Result) returns (next: Buyer)
    requires Succeeding(t, ids, q, r) && !Ready(q)
    ensures Succeeding(t, ids, next, r) && next.call == q.call && Rank(q.pc) < Rank(next.pc)
  {
    SuccessGoesOn(t, ids, q);
    BuyerStep(t, ids, q);
    next := Statement(t, ids, q).next;
  }

  lemma SoloReady(t: Tables, ids: Ids, q: Buyer)
    requires OnPath(q) && Ready(q)
    ensures Solo(t, ids, q, {}) == Result(t + q.writes, FinalReply(q))
  {
  }

  /** It ends so from `p`, its last statement but the commit. */
  ghost predicate EndsFrom(t: Tables, p: Buyer, r: Result) {
    BuyerInv(t, p) && Ready(p) && r == Result(t + p.writes, FinalReply(p))
  }

  lemma SuccessEnds(t: Tables, ids: Ids, q: Buyer, r: Result)
    requires Succeeding(t, ids, q, r) && Ready(q)
    ensures EndsFrom(t, q, r)
  {
    SoloReady(t, ids, q);
  }

  /** A run that succeeds passes through its last statement. */
  lemma {:induction false} SuccessIsReady(t: Tables, ids: Ids, q: Buyer, r: Result) returns (p: Buyer)
    requires Succeeding(t, ids, q, r)
    ensures EndsFrom(t, p, r) && p.call == q.call
    decreases 12 - Rank(q.pc)
  {
    if Ready(q) {
      SuccessEnds(t, ids, q, r);
      p := q;
    } else {
      var next := SuccessStep(t, ids, q, r);
      p := SuccessIsReady(t, ids, next, r);
    }
  }

  /** A call that runs alone succeeds exactly when its needs are met. */
  lemma SucceedsIff(t: Tables, ids: Ids, call: Call, began: int)
    requires FreshIds(t, ids, call)
    requires call.TopUp? ==> IsInt64(call.amount)
    ensures Successful(RunAlone(t, ids, call, began, {}).reply) <==> Accepts(t, call)
  {
    if Accepts(t, call) {
      var p := AcceptedRunsAlone(t, ids, call, began);
    }
    if Successful(RunAlone(t, ids, call, began, {}).reply) {
      var p := SuccessIsReady(t, ids, Begin(call, began), RunAlone(t, ids, call, began, {}));
      ReadyAccepted(t, p);
    }
  }

  /** A call that does not succeed, for whatever reason, leaves the tables as they were. */
  lemma {:induction false} FailureChangesNothing(t: Tables, ids: Ids, q: Buyer, faults: set<Pc>)
    ensures !Successful(Solo(t, ids, q, faults).reply) ==> Solo(t, ids, q, faults).tables == t
    decreases 12 - Rank(q.pc)
  {
    if q.pc !in faults {
      match Statement(t, ids, q)
      case Continue(next) => FailureChangesNothing(t, ids, next, faults);
      case Committed(r) => CommitsSuccess(t, ids, q);
      case _ =>
    }
  }

  /** All or nothing: a call that ends with an error of its own leaves the tables as they were, and
      one that ends with a fault leaves them so or, when only the acknowledgement of its commit
      was lost, as its success leaves them. */
  lemma AllOrNothing(t: Tables, a: Seqs, p: Buyer, faults: set<Pc>, u: Tables, b: Seqs, reply: Calls.Reply)
    requires Ended(t, a, p, faults, u, b, reply)
    ensures !Successful(reply) && reply != Refused(Fault) ==> u == t
    ensures var alone := Solo(t, SequenceIds(a), p, {});
            reply == Refused(Fault) ==> u == t || (Successful(alone.reply) && u == alone.tables)
  {
    FailureChangesNothing(t, SequenceIds(a), p, faults);
  }

  lemma DepositEnables(t: Tables, u: Tables, p: Buyer, call: Call)
    requires Deposits(t, u, p) && call.Create? && p.call.userId == call.userId
    requires WalletOf(t, call.userId) == Some(p.wallet)
    requires call.key != "" && KeyAt(call.vendorId, call.userId, call.key) !in t
    requires PriceOf(t, call.vendorId, call.catalogId).Some? && ItemIn(t, call.catalogId).active
    requires var balance := WalletIn(t, p.wallet).balance + p.call.amount;
             var price := ItemIn(t, call.catalogId).price;
             price <= balance && IsInt64(balance - price)
    ensures Accepts(u, call)
  {
    forall w | w in WalletsOf(u, call.userId)
      ensures w in WalletsOf(t, call.userId)
    {
      assert w != p.wallet ==> WalletAt(w) in t && t[WalletAt(w)] == u[WalletAt(w)];
    }
    forall w | w in WalletsOf(t, call.userId)
      ensures w in WalletsOf(u, call.userId)
    {
    }
    assert WalletsOf(u, call.userId) == WalletsOf(t, call.userId);
  }

  lemma AcceptedRunsAlone(t: Tables, ids: Ids, call: Call, began: int) returns (p: Buyer)
    requires (call.TopUp? ==> IsInt64(call.amount)) && Accepts(t, call) && FreshIds(t, ids, call)
    ensures BuyerInv(t, p) && Ready(p) && p.call == call && p.began == began && p.ids == ids
    ensures RunAlone(t, ids, call, began, {}) == Result(t + p.writes, FinalReply(p))
  {
    p := FinishedCall(t, ids, call, began);
    RunsAloneTo(t, p);
  }

  /** A purchase that is accepted places order `ids.order`: it takes the item's price from the
      user's wallet, with one order_debit row, links the call's key to the order, enqueues its
      job and, for a renewal, extends the service; every other row stays as it is. */
  lemma PurchaseOutcome(t: Tables, ids: Ids, call: Call, began: int)
    requires !call.TopUp? && Accepts(t, call) && FreshIds(t, ids, call)
    ensures var r := RunAlone(t, ids, call, began, {});
            && r.reply == Placed(ids.order, StateApproved, StatePending, false)
            && exists p: Buyer ::
                 Pays(t, p) && Buys(t, r.tables, p) && p.call == call && p.ids == ids && p.began == began
  {
    var p := AcceptedRunsAlone(t, ids, call, began);
    CommitBuys(t, p);
    PaysRightly(t, p);
    assert p.call == call && p.ids == ids && p.began == began && Pays(t, p) && Buys(t, t + p.writes, p);
  }

  /** The rows of a purchase, column by column. */
  lemma PurchaseRowsAre(t: Tables, u: Tables, p: Buyer)
    requires Buys(t, u, p)
    ensures HasOrder(u, p.ids.order) && HasJob(u, p.ids.job) && HasEntry(u, p.ids.ledger)
    ensures OrderIn(u, p.ids.order) ==
            Order(p.vendor, p.call.userId, p.catalog, p.price, StateApproved, StatePending, p.call.key, None)
    ensures JobIn(u, p.ids.job) == Job(p.vendor, p.ids.order, JobPending, 0, false)
    ensures EntryIn(u, p.ids.ledger).walletId == p.wallet && EntryIn(u, p.ids.ledger).userId == p.call.userId
    ensures EntryIn(u, p.ids.ledger).kind == OrderDebit
    ensures EntryIn(u, p.ids.ledger).amount == if p.price == MIN_INT64 then MIN_INT64 else -p.price
    ensures p.call.Renew? ==>
              var sid := p.call.serviceId;
              && HasService(t, sid) && HasService(u, sid)
              && var row := ServiceIn(t, sid);
                 var from := if row.expiresAt.None? || row.expiresAt.value < p.began then p.began
                             else row.expiresAt.value;
                 ServiceIn(u, sid) == row.(expiresAt := Some(from + p.days * 86_400))
  {
  }

  /** The vendor, item, price, wallet and duration of a purchase, as the tables give them. */
  ghost predicate Pays(t: Tables, p: Buyer) {
    && WalletOf(t, p.call.userId) == Some(p.wallet)
    && HasItem(t, p.catalog) && ItemIn(t, p.catalog).vendorId == p.vendor && p.price == ItemIn(t, p.catalog).price
    && (p.call.Create? ==> p.vendor == p.call.vendorId && p.catalog == p.call.catalogId)
    && (p.call.Renew? ==>
          && HasService(t, p.call.serviceId) && ServiceIn(t, p.call.serviceId).userId == p.call.userId
          && var row := ServiceIn(t, p.call.serviceId);
             && p.vendor == row.vendorId && p.days == row.days && row.orderId.Some?
             && HasOrder(t, row.orderId.value) && p.catalog == OrderIn(t, row.orderId.value).catalogId)
  }

  lemma PaysRightly(t: Tables, p: Buyer)
    requires BuyerInv(t, p) && Ready(p) && !p.call.TopUp?
    ensures Pays(t, p)
  {
  }

  /** Create reports want of money only after every other check has passed. */
  lemma {:induction false} RefusedForMoney(t: Tables, ids: Ids, q: Buyer)
    requires q.call.Create? && BuyerInv(t, q) && FreshIds(t, ids, q.call)
    requires Solo(t, ids, q, {}).reply == Refused(Insufficient)
    ensures q.call.key != "" && KeyAt(q.call.vendorId, q.call.userId, q.call.key) !in t
    ensures HasItem(t, q.call.catalogId) && ItemIn(t, q.call.catalogId).vendorId == q.call.vendorId
    ensures ItemIn(t, q.call.catalogId).active
    decreases 12 - Rank(q.pc)
  {
    match Statement(t, ids, q)
    case Continue(next) =>
      BuyerStep(t, ids, q);
      SameCall(t, ids, q);
      RefusedForMoney(t, ids, next);
    case Failed(_) => assert q.pc.Reserved?;
    case Committed(_) => CommitsSuccess(t, ids, q);
    case Returned(_) =>
  }

  /** A failed purchase does not burn its key: refused for want of money, the same Create
      succeeds after any top-up that brings the balance to the price. */
  lemma RetryAfterTopUp(t: Tables, ids: Ids, ids': Ids, ids'': Ids, call: Call, deposit: Call,
                       began: int, began': int, began'': int)
    requires call.Create? && deposit.TopUp? && deposit.userId == call.userId && IsInt64(deposit.amount)
    requires FreshIds(t, ids, call) && FreshIds(t, ids', deposit)
    requires RunAlone(t, ids, call, began, {}).reply == Refused(Insufficient)
    requires Accepts(t, deposit) && HasItem(t, call.catalogId)
    requires var balance := WalletIn(t, WalletOf(t, call.userId).value).balance + deposit.amount;
             var price := ItemIn(t, call.catalogId).price;
             price <= balance && IsInt64(balance - price)
    requires FreshIds(RunAlone(t, ids', deposit, began', {}).tables, ids'', call)
    ensures RunAlone(RunAlone(t, ids', deposit, began', {}).tables, ids'', call, began'', {}).reply ==
            Placed(ids''.order, StateApproved, StatePending, false)
  {
    RefusedForMoney(t, ids, Begin(call, began));
    var p := AcceptedRunsAlone(t, ids', deposit, began');
    CommitDeposits(t, p);
    var u := t + p.writes;
    DepositEnables(t, u, p, call);
    var q := AcceptedRunsAlone(u, ids'', call, began'');
  }
}
