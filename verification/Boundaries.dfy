/** Inputs and runs at which a promise of the schema, of the ledger, of an answer or of a job's
    status stops holding. */
module Boundaries {
  import opened Schema
  import opened Repository
  import opened Calls
  import opened Engine
  import opened CoreInvariant
  import opened CoreSteps
  import opened Effects
  import opened Totals
  import opened Serializable
  import opened SoloRuns
  import Accounts
  import Decimal
  import Json
  import Outcomes
  import Retries
  import JobRunner
  import Provisioning
  import Repositories
  import W = Workers

  /** UNIQUE(user_id, vendor_id) does not stop a second wallet, because vendor_id is null: two
      EnsureForUser calls for one user both succeed. That a user has one wallet rests on
      Register calling it once, for a user it has just created. */
  lemma EnsureTwice(s: State, a: int, b: int, userId: int)
    requires Core(s) && a != b
    requires a in s.procs && b in s.procs && s.procs[a] == Registering(userId) && s.procs[b] == Registering(userId)
    ensures EnsureForUser(s, a).Some? && EnsureForUser(EnsureForUser(s, a).value, b).Some?
    ensures !Accounts.OneWallet(EnsureForUser(EnsureForUser(s, a).value, b).value.db)
  {
    var mid := Ensures(s, a, userId);
    var end := Ensures(mid, b, userId);
    TwoWallets(s.db, s.seqs.wallet, userId);
  }

  lemma Ensures(s: State, tid: int, userId: int) returns (s': State)
    requires tid in s.procs && s.procs[tid] == Registering(userId)
    ensures EnsureForUser(s, tid) == Some(s')
    ensures s'.db == s.db + map[WalletAt(s.seqs.wallet) := WalletRow(Wallet(userId, 0))]
    ensures s'.procs == s.procs - {tid} && s'.seqs.wallet == s.seqs.wallet + 1
  {
    s' := EnsureForUser(s, tid).value;
  }

  lemma TwoWallets(t: Tables, w: int, userId: int)
    ensures var row := WalletRow(Wallet(userId, 0));
            !Accounts.OneWallet(t + map[WalletAt(w) := row] + map[WalletAt(w + 1) := row])
  {
    var row := WalletRow(Wallet(userId, 0));
    var u := t + map[WalletAt(w) := row] + map[WalletAt(w + 1) := row];
    assert HasWallet(u, w) && HasWallet(u, w + 1) && WalletIn(u, w).userId == WalletIn(u, w + 1).userId;
  }

  /** The price a purchase pays, as a caller can look it up beforehand. */
  ghost function Price(t: Tables, call: Call): int
    requires !call.TopUp? && Outcomes.Accepts(t, call)
  {
    if call.Create? then ItemIn(t, call.catalogId).price
    else ItemIn(t, OrderIn(t, ServiceIn(t, call.serviceId).orderId.value).catalogId).price
  }

  /** The ledger of the wallet adds up to its balance. */
  ghost predicate Agrees(t: Tables, w: int) {
    HasWallet(t, w) && Total(Accounts.Entries(t, w)) == WalletIn(t, w).balance
  }

  /** A purchase keeps the ledger and the balance of its wallet in agreement if and only if its
      price is not the least int64. */
  lemma PurchaseKeepsAgreementIff(t: Tables, ids: Ids, call: Call, began: int)
    requires !call.TopUp? && Outcomes.Accepts(t, call) && FreshIds(t, ids, call)
    requires Agrees(t, WalletOf(t, call.userId).value)
    ensures Agrees(RunAlone(t, ids, call, began, {}).tables, WalletOf(t, call.userId).value) <==>
            Price(t, call) != MIN_INT64
  {
    var p := Outcomes.AcceptedRunsAlone(t, ids, call, began);
    CommitBuys(t, p);
    Outcomes.PaysRightly(t, p);
    Accounts.PurchaseTotals(t, t + p.writes, p, p.wallet, call.userId);
  }

  lemma StepReachable(s: State, l: Label, s': State)
    requires Reachable(s) && Next(s, l) == Some(s')
    ensures Reachable(s')
  {
    assert Run(s', []) == Some(s') && [l][1..] == [];
    StaysReachable(s, [l], s');
  }

  lemma Registered() returns (s: State)
    ensures Reachable(s) && s.procs == map[1 := Registering(1)] && s.answers == map[]
    ensures s.db == map[UserAt(1) := UserRow("a")] && s.seqs == FIRST_IDS.(user := 2)
  {
    assert Run(INITIAL, []) == Some(INITIAL);
    s := Next(INITIAL, Register(1, "a")).value;
    StepReachable(INITIAL, Register(1, "a"), s);
  }

  lemma Ensured() returns (s: State)
    ensures Reachable(s) && s.procs == map[] && s.answers == map[] && s.seqs.item == 1
    ensures s.db == map[UserAt(1) := UserRow("a"), WalletAt(1) := WalletRow(Wallet(1, 0))]
  {
    var registered := Registered();
    s := Next(registered, EnsureWallet(1)).value;
    StepReachable(registered, EnsureWallet(1), s);
  }

  const LEAST_PRICED := Item(1, "vless", 1, 1, MIN_INT64, true)
  const FREE := Item(1, "vless", 1, 1, 0, true)

  /** One user, with an empty wallet, and one item. */
  function Stock(item: Item): Tables {
    map[UserAt(1) := UserRow("a"), WalletAt(1) := WalletRow(Wallet(1, 0)), ItemAt(1) := ItemRow(item)]
  }

  lemma Stocked(item: Item) returns (s: State)
    requires IsInt64(item.price)
    ensures Reachable(s) && s.procs == map[] && s.answers == map[] && s.db == Stock(item)
  {
    var ensured := Ensured();
    s := Next(ensured, AddItem(item)).value;
    StepReachable(ensured, AddItem(item), s);
  }

  /** An accepted call, submitted while nothing else is under way and stepped to its end. */
  lemma Served(s: State, tid: int, call: Call, heard: bool) returns (p: Buyer, s': State)
    requires Reachable(s) && s.procs == map[] && tid !in s.answers
    requires (call.TopUp? ==> IsInt64(call.amount)) && Outcomes.Accepts(s.db, call)
    ensures Reachable(s') && s'.procs == map[] && s'.db == s.db + p.writes
    ensures s'.answers == s.answers[tid := Answer(call, if heard then FinalReply(p) else Refused(Fault))]
    ensures Retries.HasCommitted(s', tid)
    ensures p.call == call && WalletOf(s.db, call.userId) == Some(p.wallet)
    ensures !call.TopUp? ==> Outcomes.Pays(s.db, p)
    ensures if call.TopUp? then Deposits(s.db, s'.db, p) else Buys(s.db, s'.db, p)
  {
    Accounts.ReachableAccounts(s);
    SequenceIdsFresh(s, call);
    p := Outcomes.AcceptedRunsAlone(s.db, SequenceIds(s.seqs), call, s.clock);
    var ls;
    ls, s' := AloneIsRun(s, tid, call, heard);
    StaysReachable(s, ls, s');
    assert s'.log[|s.log|].tid == tid;
    if call.TopUp? {
      CommitDeposits(s.db, p);
    } else {
      CommitBuys(s.db, p);
      Outcomes.PaysRightly(s.db, p);
    }
  }

  const OVERDRAW := TopUp(1, -1)
  const BUY := Create(1, 1, 1, "k")

  lemma StockedWallet(item: Item)
    ensures WalletOf(Stock(item), 1) == Some(1) && Outcomes.Accepts(Stock(item), OVERDRAW)
    ensures item == FREE ==> Outcomes.Accepts(Stock(item), BUY)
  {
    assert WalletsOf(Stock(item), 1) == {1};
  }

  /** On a balance of -1 the purchase at the least price is accepted. */
  lemma OverdrawnAccepts(u: Tables, p: Buyer)
    requires Deposits(Stock(LEAST_PRICED), u, p) && p.call == OVERDRAW && p.wallet == 1
    ensures Outcomes.Accepts(u, BUY) && WalletOf(u, 1) == Some(1) && WalletIn(u, 1) == Wallet(1, -1)
    ensures HasItem(u, 1) && ItemIn(u, 1) == LEAST_PRICED
    ensures Accounts.LeastOrders(u, 1) == {}
  {
    assert WalletsOf(u, 1) == {1};
  }

  lemma BoughtAtLeast(t: Tables, u: Tables, p: Buyer)
    requires Buys(t, u, p) && Outcomes.Pays(t, p) && p.call == BUY && p.wallet == 1
    requires WalletIn(t, 1) == Wallet(1, -1) && HasItem(t, 1) && ItemIn(t, 1) == LEAST_PRICED
    ensures HasWallet(u, 1) && WalletIn(u, 1) == Wallet(1, MAX_INT64)
    ensures Accounts.LeastOrders(u, 1) != {}
    ensures Total(Accounts.Entries(u, 1)) == Total(Accounts.Entries(t, 1)) + MIN_INT64
  {
    assert OrderAt(p.ids.order) in Accounts.LeastOrders(u, 1);
    Accounts.PurchaseTotals(t, u, p, 1, 1);
  }

  /** A run that breaks the agreement: a user is registered, an admin tops its wallet up by -1, and
      the purchase of an item at the least price is accepted. The balance rises by 2^63 while
      the order_debit row records a fall of 2^63. */
  lemma LeastPriceBreaksLedger() returns (s: State)
    ensures Reachable(s) && HasWallet(s.db, 1)
    ensures Accounts.LeastOrders(s.db, WalletIn(s.db, 1).userId) != {}
    ensures WalletIn(s.db, 1).balance == MAX_INT64
    ensures Total(Accounts.Entries(s.db, 1)) == MIN_INT64 - 1
  {
    var stocked := Stocked(LEAST_PRICED);
    StockedWallet(LEAST_PRICED);
    var deposit, overdrawn := Served(stocked, 2, OVERDRAW, true);
    OverdrawnAccepts(overdrawn.db, deposit);
    Accounts.LedgerAgrees(overdrawn, 1);
    var purchase;
    purchase, s := Served(overdrawn, 3, BUY, true);
    BoughtAtLeast(overdrawn.db, s.db, purchase);
  }

  /** An error may hide a commit: a user buys a free item, the commit goes unheard, and the call is
      answered by a fault although its order has been placed. */
  lemma FaultHidesOrder() returns (s: State, p: Buyer)
    ensures Reachable(s) && s.procs == map[]
    ensures s.answers == map[2 := Answer(BUY, Refused(Fault))] && Retries.HasCommitted(s, 2)
    ensures p.call == BUY && Outcomes.Pays(Stock(FREE), p) && Buys(Stock(FREE), s.db, p)
  {
    var stocked := Stocked(FREE);
    StockedWallet(FREE);
    p, s := Served(stocked, 2, BUY, false);
  }

  const PANEL := Panel(1, true)

  /** What its tables, with a panel, offer a worker. */
  lemma OneJob(t: Tables, p: Buyer, panel: int, u: Tables)
    requires p.call == BUY && Outcomes.Pays(Stock(FREE), p) && Buys(Stock(FREE), t, p)
    requires PanelAt(panel) !in t && u == t + map[PanelAt(panel) := PanelRow(PANEL)]
    ensures W.Claimable(u, {}) == {p.ids.job}
    ensures JobIn(u, p.ids.job) == Job(1, p.ids.order, JobPending, 0, false)
    ensures HasOrder(u, p.ids.order) && HasPanel(u, panel)
    ensures JobRunner.Deliverable(JobRunner.JustClaimed(u, p.ids.job), JobIn(u, p.ids.job), Some(0))
  {
    var v := JobRunner.JustClaimed(u, p.ids.job);
    assert PanelAt(panel) in v && Repositories.IsActivePanel(v, 1, panel);
    assert OrderAt(p.ids.order) in PurchaseRows(p) && JobAt(p.ids.job) in PurchaseRows(p);
    forall j | j in W.Claimable(u, {})
      ensures j == p.ids.job
    {
      assert JobAt(j) in t && (JobAt(j) !in PurchaseRows(p) ==> JobAt(j) in Stock(FREE));
    }
  }

  lemma Claimed(s: State, tid: int, j: int) returns (s': State)
    requires Reachable(s) && s.procs == map[] && tid !in s.answers && W.Claimable(s.db, {}) == {j}
    ensures Reachable(s') && s'.procs == map[tid := Working(W.Claim(j, JobIn(s.db, j)))]
    ensures s'.db == JobRunner.JustClaimed(s.db, j)
  {
    assert Locked(s.procs, {}) == {};
    s' := Next(s, Claim(tid)).value;
    StepReachable(s, Claim(tid), s');
  }

  lemma PanelAdded(s: State) returns (s': State, panel: int)
    requires Reachable(s)
    ensures Reachable(s') && s'.procs == s.procs && s'.answers == s.answers
    ensures PanelAt(panel) !in s.db && s'.db == s.db + map[PanelAt(panel) := PanelRow(PANEL)]
  {
    Accounts.ReachableAccounts(s);
    panel := s.seqs.panel;
    s' := Next(s, AddPanel(PANEL)).value;
    StepReachable(s, AddPanel(PANEL), s');
  }

  /** A worker has claimed the one job, whose order a panel can now serve. */
  lemma WorkBegun() returns (s: State, j: int, job: Job)
    ensures Reachable(s) && s.procs == map[3 := Working(W.Claim(j, job))]
    ensures HasJob(s.db, j) && JobIn(s.db, j).orderId == job.orderId
    ensures JobRunner.Deliverable(s.db, job, Some(0))
  {
    var bought, p := FaultHidesOrder();
    var supplied, panel := PanelAdded(bought);
    OneJob(bought.db, p, panel, supplied.db);
    j, job := p.ids.job, JobIn(supplied.db, p.ids.job);
    s := Claimed(supplied, 3, j);
  }

  lemma DoneUnheard(t: Tables, n: int, j: int, job: Job)
    requires HasJob(t, j) && JobIn(t, j).orderId == job.orderId && JobRunner.Deliverable(t, job, Some(0))
    ensures var u := W.WorkAlone(t, n, Some(0), W.Claim(j, job), {W.Joined}, true);
            && HasJob(u, j) && JobIn(u, j).status.JobFailed? && JobIn(u, j).orderId == job.orderId
            && HasOrder(u, job.orderId) && OrderIn(u, job.orderId).serviceId == Some(n)
  {
    JobRunner.UnheardOutcome(t, n, Some(0), j, job);
  }

  /** And a failed job may have been done: the run goes on with a panel and a worker, whose commit
      goes unheard; the job ends failed, with its order linked to the service it made. */
  lemma FailedJobIsLinked() returns (s: State, j: int)
    ensures Reachable(s) && s.procs == map[] && j in s.lost
    ensures HasJob(s.db, j) && JobIn(s.db, j).status.JobFailed?
    ensures HasOrder(s.db, JobIn(s.db, j).orderId) && OrderIn(s.db, JobIn(s.db, j).orderId).serviceId.Some?
  {
    var begun, id, job := WorkBegun();
    j := id;
    var ls;
    ls, s := WorkIsRun(begun, 3, W.Claim(j, job), begun.seqs.service, Some(0), true);
    StaysReachable(begun, ls, s);
    DoneUnheard(begun.db, begun.seqs.service, j, job);
    Provisioning.JobTellsLink(s, j);
  }

  /** Renewals draw different keys unless they renew one service at one reading of the clock, in
      which case the second finds its key taken. */
  lemma RenewKeysDiffer(sid: int, nano: int, sid': int, nano': int)
    ensures RenewKey(sid, nano) == RenewKey(sid', nano') <==> sid == sid' && nano == nano'
    ensures "renew:" <= RenewKey(sid, nano)
  {
    ReadsBack(sid, nano);
    ReadsBack(sid', nano');
  }

  lemma ReadsBack(sid: int, nano: int)
    ensures var key := RenewKey(sid, nano);
            && "renew:" <= key && |key| > 6
            && Json.ReadInt(key[6..]) == Some(Json.Number(sid, ":" + Decimal.Print(nano)))
            && Json.ReadInt((":" + Decimal.Print(nano))[1..]) == Some(Json.Number(nano, []))
  {
    assert RenewKey(sid, nano)[6..] == Decimal.Print(sid) + (":" + Decimal.Print(nano));
    Json.IntRoundTrip(sid, ":" + Decimal.Print(nano));
    Json.IntRoundTrip(nano, []);
    assert (":" + Decimal.Print(nano))[1..] == Decimal.Print(nano) + [];
  }

  /** Renewing twice: accepted on these tables, tried again at another reading of the clock, and with
      money for both, a renewal places two orders, takes its price twice, and extends the expiry
      twice. */
  lemma RenewedTwice(t: Tables, ids: Ids, ids': Ids, userId: int, sid: int, nano: int, nano': int,
                     began: int, began': int)
    requires nano != nano'
    requires var call := Renew(userId, sid, RenewKey(sid, nano));
             && Outcomes.Accepts(t, call) && FreshIds(t, ids, call)
             && FreshIds(RunAlone(t, ids, call, began, {}).tables, ids', call)
             && KeyAt(ServiceIn(t, sid).vendorId, userId, RenewKey(sid, nano')) !in t
             && var rest := WalletIn(t, WalletOf(t, userId).value).balance - Price(t, call);
                Price(t, call) <= rest && IsInt64(rest - Price(t, call))
    ensures var call := Renew(userId, sid, RenewKey(sid, nano));
            var w, row := WalletOf(t, userId).value, ServiceIn(t, sid);
            var r := RunAlone(t, ids, call, began, {});
            var r' := RunAlone(r.tables, ids', Renew(userId, sid, RenewKey(sid, nano')), began', {});
            && r.reply == Placed(ids.order, StateApproved, StatePending, false)
            && r'.reply == Placed(ids'.order, StateApproved, StatePending, false) && ids'.order != ids.order
            && HasOrder(r'.tables, ids.order) && HasOrder(r'.tables, ids'.order)
            && HasWallet(r'.tables, w) && WalletIn(r'.tables, w).balance == WalletIn(t, w).balance - 2 * Price(t, call)
            && HasService(r'.tables, sid)
            && ServiceIn(r'.tables, sid).expiresAt ==
                 Some(ExtendedExpiry(Some(ExtendedExpiry(row.expiresAt, row.days, began)), row.days, began'))
  {
    var call := Renew(userId, sid, RenewKey(sid, nano));
    var retry := Renew(userId, sid, RenewKey(sid, nano'));
    RenewKeysDiffer(sid, nano, sid, nano');
    var p := Outcomes.AcceptedRunsAlone(t, ids, call, began);
    CommitBuys(t, p);
    Outcomes.PaysRightly(t, p);
    var u := t + p.writes;
    StillAccepts(t, u, p, retry);
    var q := Outcomes.AcceptedRunsAlone(u, ids', retry, began');
    CommitBuys(u, q);
    Outcomes.PaysRightly(u, q);
    TwoPurchases(t, u, u + q.writes, p, q);
  }

  /** After one renewal, the service's next is accepted if its key is new and the money suffices. */
  lemma StillAccepts(t: Tables, u: Tables, p: Buyer, retry: Call)
    requires p.call.Renew? && Outcomes.Accepts(t, p.call) && Outcomes.Pays(t, p) && Buys(t, u, p)
    requires retry.Renew? && retry.userId == p.call.userId && retry.serviceId == p.call.serviceId
    requires KeyAt(p.vendor, retry.userId, retry.key) !in t && retry.key != p.call.key
    requires var rest := WalletIn(t, p.wallet).balance - p.price; p.price <= rest && IsInt64(rest - p.price)
    ensures Outcomes.Accepts(u, retry) && WalletOf(u, retry.userId) == Some(p.wallet)
  {
    WalletKept(t, u, p);
    assert OrderAt(ServiceIn(t, retry.serviceId).orderId.value) !in PurchaseRows(p);
    assert ItemAt(p.catalog) !in PurchaseRows(p);
    assert KeyAt(p.vendor, retry.userId, retry.key) !in PurchaseRows(p);
  }

  lemma WalletKept(t: Tables, u: Tables, p: Buyer)
    requires Buys(t, u, p) && WalletOf(t, p.call.userId) == Some(p.wallet)
    ensures WalletOf(u, p.call.userId) == Some(p.wallet)
  {
    forall w
      ensures w in WalletsOf(u, p.call.userId) <==> w in WalletsOf(t, p.call.userId)
    {
      assert w != p.wallet ==> WalletAt(w) !in PurchaseRows(p);
    }
    assert WalletsOf(u, p.call.userId) == WalletsOf(t, p.call.userId);
  }

  lemma TwoPurchases(t: Tables, u: Tables, v: Tables, p: Buyer, q: Buyer)
    requires p.call.Renew? && Buys(t, u, p) && Outcomes.Pays(t, p)
    requires q.call.Renew? && Buys(u, v, q) && Outcomes.Pays(u, q)
    requires q.call.serviceId == p.call.serviceId && q.call.userId == p.call.userId && q.wallet == p.wallet
    ensures q.ids.order != p.ids.order && HasOrder(v, p.ids.order) && HasOrder(v, q.ids.order)
    ensures q.price == p.price
    ensures HasWallet(v, p.wallet) && WalletIn(v, p.wallet).balance == WalletIn(t, p.wallet).balance - 2 * p.price
    ensures var sid := p.call.serviceId;
            var row := ServiceIn(t, sid);
            && HasService(v, sid) && p.days == row.days
            && ServiceIn(v, sid).expiresAt ==
                 Some(ExtendedExpiry(Some(ExtendedExpiry(row.expiresAt, row.days, p.began)), row.days, q.began))
  {
    assert OrderAt(p.ids.order) !in PurchaseRows(q);
    assert OrderAt(ServiceIn(t, p.call.serviceId).orderId.value) !in PurchaseRows(p);
    assert ItemAt(p.catalog) !in PurchaseRows(p);
  }
}
