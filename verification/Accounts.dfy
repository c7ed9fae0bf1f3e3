/** Conservation of money. In every reachable state a user has at most one wallet, its balance
    is the user's top-ups less the user's order amounts, and the ledger agrees with it up to
    the one int64 that has no negation. */
module Accounts {
  import opened Schema
  import opened Calls
  import opened Engine
  import opened CoreInvariant
  import opened CoreSteps
  import opened Effects
  import opened Totals
  import Serializable
  import W = Workers

  ghost predicate OneWallet(t: Tables) {
    forall v, w :: HasWallet(t, v) && HasWallet(t, w) && WalletIn(t, v).userId == WalletIn(t, w).userId ==> v == w
  }

  /** Every wallet belongs to a user row; a Register call between its two inserts is the only
      one for its user, who has no wallet yet. */
  ghost predicate Registration(s: State) {
    && (forall w :: HasWallet(s.db, w) ==> UserAt(WalletIn(s.db, w).userId) in s.db)
    && (forall tid, w :: tid in s.procs && s.procs[tid].Registering? && HasWallet(s.db, w) ==>
          WalletIn(s.db, w).userId != s.procs[tid].userId)
    && (forall tid :: tid in s.procs && s.procs[tid].Registering? ==> UserAt(s.procs[tid].userId) in s.db)
    && (forall a, b ::
          a in s.procs && b in s.procs && s.procs[a].Registering? && s.procs[b] == s.procs[a] ==> a == b)
  }

  /** Ledger rows name an existing wallet and its user; a user who has ordered has a wallet. */
  ghost predicate Fitting(t: Tables) {
    && (forall e :: HasEntry(t, e) ==>
          HasWallet(t, EntryIn(t, e).walletId) && WalletIn(t, EntryIn(t, e).walletId).userId == EntryIn(t, e).userId)
    && (forall o :: HasOrder(t, o) ==> exists w :: HasWallet(t, w) && WalletIn(t, w).userId == OrderIn(t, o).userId)
  }

  ghost function Topups(t: Tables, w: int): map<Addr, int> {
    map a | a in t && a.LedgerAt? && t[a].LedgerRow? && t[a].entry.walletId == w && t[a].entry.kind == AdminTopup
      :: t[a].entry.amount
  }

  ghost function Entries(t: Tables, w: int): map<Addr, int> {
    map a | a in t && a.LedgerAt? && t[a].LedgerRow? && t[a].entry.walletId == w :: t[a].entry.amount
  }

  ghost function OrderAmounts(t: Tables, userId: int): map<Addr, int> {
    map a | a in t && a.OrderAt? && t[a].OrderRow? && t[a].order.userId == userId :: t[a].order.amount
  }

  /** A user's orders whose amount is the int64 that is its own negation. */
  ghost function LeastOrders(t: Tables, userId: int): set<Addr> {
    set a | a in t && a.OrderAt? && t[a].OrderRow? && t[a].order.userId == userId && t[a].order.amount == MIN_INT64
  }

  ghost predicate WalletBalanced(t: Tables, w: int)
    requires HasWallet(t, w)
  {
    var row := WalletIn(t, w);
    && row.balance == Total(Topups(t, w)) - Total(OrderAmounts(t, row.userId))
    && Total(Entries(t, w)) == row.balance - TWO_TO_64 * |LeastOrders(t, row.userId)|
  }

  ghost predicate Balanced(t: Tables) {
    forall w :: HasWallet(t, w) ==> WalletBalanced(t, w)
  }

  /** `f` maps each order to its own order_debit row, and onto all of them. */
  ghost predicate PairedBy(t: Tables, f: map<int, int>) {
    && (forall o :: o in f <==> HasOrder(t, o))
    && (forall o :: o in f ==>
          && HasEntry(t, f[o])
          && EntryIn(t, f[o]).kind == OrderDebit
          && EntryIn(t, f[o]).userId == OrderIn(t, o).userId
          && EntryIn(t, f[o]).amount == Neg64(OrderIn(t, o).amount))
    && (forall o, o' :: o in f && o' in f && f[o] == f[o'] ==> o == o')
    && (forall e :: HasEntry(t, e) && EntryIn(t, e).kind == OrderDebit ==> exists o :: o in f && f[o] == e)
  }

  ghost predicate Books(t: Tables) {
    && OneWallet(t) && Fitting(t) && Balanced(t)
    && exists f :: PairedBy(t, f)
  }

  lemma QuietSums(t: Tables, u: Tables, w: int, userId: int)
    requires SameBooks(t, u)
    ensures Topups(u, w) == Topups(t, w) && Entries(u, w) == Entries(t, w)
    ensures OrderAmounts(u, userId) == OrderAmounts(t, userId)
    ensures LeastOrders(u, userId) == LeastOrders(t, userId)
  {
  }

  lemma QuietBooks(t: Tables, u: Tables)
    requires SameBooks(t, u) && Books(t)
    ensures Books(u)
  {
    QuietRows(t, u);
    forall w | HasWallet(u, w)
      ensures WalletBalanced(u, w)
    {
      assert WalletBalanced(t, w);
      QuietSums(t, u, w, WalletIn(t, w).userId);
    }
    forall o | HasOrder(u, o)
      ensures exists w :: HasWallet(u, w) && WalletIn(u, w).userId == OrderIn(u, o).userId
    {
      var w :| HasWallet(t, w) && WalletIn(t, w).userId == OrderIn(t, o).userId;
      assert HasWallet(u, w);
    }
    var f :| PairedBy(t, f);
    QuietPairing(t, u, f);
  }

  lemma QuietPairing(t: Tables, u: Tables, f: map<int, int>)
    requires SameBooks(t, u) && PairedBy(t, f)
    ensures PairedBy(u, f)
  {
    QuietRows(t, u);
  }

  lemma PurchaseEntries(t: Tables, u: Tables, p: Buyer, w: int)
    requires Buys(t, u, p)
    ensures Topups(u, w) == Topups(t, w)
    ensures Entries(u, w) ==
            if w == p.wallet then Entries(t, w)[LedgerAt(p.ids.ledger) := Neg64(p.price)] else Entries(t, w)
  {
    forall a: Addr | a.LedgerAt?
      ensures a in u <==> a in t || a == LedgerAt(p.ids.ledger)
      ensures a in t ==> u[a] == t[a]
    {
      assert a != LedgerAt(p.ids.ledger) ==> a !in PurchaseRows(p);
    }
  }

  lemma PurchaseOrders(t: Tables, u: Tables, p: Buyer, userId: int)
    requires Buys(t, u, p)
    ensures OrderAmounts(u, userId) ==
            if userId != p.call.userId then OrderAmounts(t, userId)
            else OrderAmounts(t, userId)[OrderAt(p.ids.order) := p.price]
    ensures LeastOrders(u, userId) ==
            LeastOrders(t, userId) +
            if userId == p.call.userId && p.price == MIN_INT64 then {OrderAt(p.ids.order)} else {}
  {
    forall a: Addr | a.OrderAt?
      ensures a in u <==> a in t || a == OrderAt(p.ids.order)
      ensures a in t ==> u[a] == t[a]
    {
      assert a != OrderAt(p.ids.order) ==> a !in PurchaseRows(p);
    }
  }

  lemma PurchaseTotals(t: Tables, u: Tables, p: Buyer, w: int, userId: int)
    requires Buys(t, u, p)
    ensures Total(Topups(u, w)) == Total(Topups(t, w))
    ensures Total(Entries(u, w)) == Total(Entries(t, w)) + (if w == p.wallet then Neg64(p.price) else 0)
    ensures Total(OrderAmounts(u, userId)) ==
            Total(OrderAmounts(t, userId)) + (if userId == p.call.userId then p.price else 0)
    ensures |LeastOrders(u, userId)| ==
            |LeastOrders(t, userId)| + (if userId == p.call.userId && p.price == MIN_INT64 then 1 else 0)
  {
    PurchaseEntries(t, u, p, w);
    PurchaseOrders(t, u, p, userId);
    TotalInsert(Entries(t, w), LedgerAt(p.ids.ledger), Neg64(p.price));
    TotalInsert(OrderAmounts(t, userId), OrderAt(p.ids.order), p.price);
    assert OrderAt(p.ids.order) !in LeastOrders(t, userId);
  }

  lemma PurchaseBalances(t: Tables, u: Tables, p: Buyer)
    requires Buys(t, u, p) && OneWallet(t) && Balanced(t)
    ensures OneWallet(u) && Balanced(u)
  {
    forall w | HasWallet(u, w)
      ensures HasWallet(t, w) && WalletIn(u, w).userId == WalletIn(t, w).userId && WalletBalanced(u, w)
    {
      assert WalletAt(w) in t && WalletBalanced(t, w);
      PurchaseTotals(t, u, p, w, WalletIn(t, w).userId);
    }
  }

  lemma PurchaseFits(t: Tables, u: Tables, p: Buyer)
    requires Buys(t, u, p) && Fitting(t)
    ensures Fitting(u)
  {
    forall e | HasEntry(u, e)
      ensures HasWallet(u, EntryIn(u, e).walletId) && WalletIn(u, EntryIn(u, e).walletId).userId == EntryIn(u, e).userId
    {
      if e != p.ids.ledger {
        assert HasEntry(t, e);
      }
    }
    forall o | HasOrder(u, o)
      ensures exists w :: HasWallet(u, w) && WalletIn(u, w).userId == OrderIn(u, o).userId
    {
      if o == p.ids.order {
        assert HasWallet(u, p.wallet);
      } else {
        assert HasOrder(t, o);
        var w :| HasWallet(t, w) && WalletIn(t, w).userId == OrderIn(t, o).userId;
        assert HasWallet(u, w);
      }
    }
  }

  lemma PurchasePairs(t: Tables, u: Tables, p: Buyer, f: map<int, int>)
    requires Buys(t, u, p) && PairedBy(t, f)
    ensures PairedBy(u, f[p.ids.order := p.ids.ledger])
  {
    var g := f[p.ids.order := p.ids.ledger];
    assert !HasOrder(t, p.ids.order) && !HasEntry(t, p.ids.ledger);
    forall o | o in g
      ensures HasOrder(u, o) && HasEntry(u, g[o])
      ensures EntryIn(u, g[o]).kind == OrderDebit
      ensures EntryIn(u, g[o]).userId == OrderIn(u, o).userId
      ensures EntryIn(u, g[o]).amount == Neg64(OrderIn(u, o).amount)
    {
      if o != p.ids.order {
        assert o in f && HasOrder(t, o) && HasEntry(t, f[o]);
      }
    }
    forall e | HasEntry(u, e) && EntryIn(u, e).kind == OrderDebit
      ensures exists o :: o in g && g[o] == e
    {
      if e == p.ids.ledger {
        assert g[p.ids.order] == e;
      } else {
        assert HasEntry(t, e);
        var o :| o in f && f[o] == e;
        assert g[o] == e;
      }
    }
    forall o | HasOrder(u, o)
      ensures o in g
    {
      assert o != p.ids.order ==> HasOrder(t, o);
    }
  }

  lemma PurchaseBooks(t: Tables, u: Tables, p: Buyer)
    requires Buys(t, u, p) && Books(t)
    ensures Books(u)
  {
    PurchaseBalances(t, u, p);
    PurchaseFits(t, u, p);
    var f :| PairedBy(t, f);
    PurchasePairs(t, u, p, f);
  }

  lemma DepositSums(t: Tables, u: Tables, p: Buyer, w: int, userId: int)
    requires Deposits(t, u, p)
    ensures Topups(u, w) ==
            if w == p.wallet then Topups(t, w)[LedgerAt(p.ids.ledger) := p.call.amount] else Topups(t, w)
    ensures Entries(u, w) ==
            if w == p.wallet then Entries(t, w)[LedgerAt(p.ids.ledger) := p.call.amount] else Entries(t, w)
    ensures OrderAmounts(u, userId) == OrderAmounts(t, userId)
    ensures LeastOrders(u, userId) == LeastOrders(t, userId)
  {
  }

  lemma DepositBalances(t: Tables, u: Tables, p: Buyer)
    requires Deposits(t, u, p) && OneWallet(t) && Balanced(t)
    ensures OneWallet(u) && Balanced(u)
  {
    forall w | HasWallet(u, w)
      ensures HasWallet(t, w) && WalletIn(u, w).userId == WalletIn(t, w).userId && WalletBalanced(u, w)
    {
      assert WalletAt(w) in t && WalletBalanced(t, w);
      DepositSums(t, u, p, w, WalletIn(t, w).userId);
      TotalInsert(Topups(t, w), LedgerAt(p.ids.ledger), p.call.amount);
      TotalInsert(Entries(t, w), LedgerAt(p.ids.ledger), p.call.amount);
    }
  }

  lemma DepositFits(t: Tables, u: Tables, p: Buyer)
    requires Deposits(t, u, p) && Fitting(t)
    ensures Fitting(u)
  {
    forall e | HasEntry(u, e)
      ensures HasWallet(u, EntryIn(u, e).walletId) && WalletIn(u, EntryIn(u, e).walletId).userId == EntryIn(u, e).userId
    {
      if e != p.ids.ledger {
        assert HasEntry(t, e);
      }
    }
    forall o | HasOrder(u, o)
      ensures HasOrder(t, o) && OrderIn(u, o) == OrderIn(t, o)
      ensures exists w :: HasWallet(u, w) && WalletIn(u, w).userId == OrderIn(u, o).userId
    {
      assert HasOrder(t, o);
      var w :| HasWallet(t, w) && WalletIn(t, w).userId == OrderIn(t, o).userId;
      assert HasWallet(u, w);
    }
  }

  lemma DepositBooks(t: Tables, u: Tables, p: Buyer)
    requires Deposits(t, u, p) && Books(t)
    ensures Books(u)
  {
    DepositBalances(t, u, p);
    DepositFits(t, u, p);
    var f :| PairedBy(t, f);
    DepositPairs(t, u, p, f);
  }

  lemma DepositPairs(t: Tables, u: Tables, p: Buyer, f: map<int, int>)
    requires Deposits(t, u, p) && PairedBy(t, f)
    ensures PairedBy(u, f)
  {
    assert forall o :: (HasOrder(u, o) <==> HasOrder(t, o)) && (HasOrder(t, o) ==> OrderIn(u, o) == OrderIn(t, o));
    assert forall e :: HasEntry(t, e) ==> HasEntry(u, e) && EntryIn(u, e) == EntryIn(t, e);
    assert forall e :: HasEntry(u, e) && EntryIn(u, e).kind == OrderDebit ==> HasEntry(t, e);
  }

  ghost predicate AccountInv(s: State) {
    Core(s) && Registration(s) && Books(s.db)
  }

  /** `u` is `t` with a wallet for a user who has none, under an id never used. */
  ghost predicate OpensWallet(t: Tables, u: Tables, id: int, userId: int) {
    && WalletAt(id) !in t
    && (forall w :: HasWallet(t, w) ==> WalletIn(t, w).userId != userId)
    && u == t[WalletAt(id) := WalletRow(Wallet(userId, 0))]
  }

  lemma OpeningRows(t: Tables, u: Tables, id: int, userId: int)
    requires OpensWallet(t, u, id, userId)
    ensures forall w :: HasWallet(u, w) <==> w == id || HasWallet(t, w)
    ensures forall w :: HasWallet(t, w) ==> w != id && WalletIn(u, w) == WalletIn(t, w)
    ensures forall e :: (HasEntry(u, e) <==> HasEntry(t, e)) && (HasEntry(t, e) ==> EntryIn(u, e) == EntryIn(t, e))
    ensures forall o :: (HasOrder(u, o) <==> HasOrder(t, o)) && (HasOrder(t, o) ==> OrderIn(u, o) == OrderIn(t, o))
  {
  }

  lemma OpeningSums(t: Tables, u: Tables, id: int, userId: int, w: int, x: int)
    requires OpensWallet(t, u, id, userId)
    ensures Topups(u, w) == Topups(t, w) && Entries(u, w) == Entries(t, w)
    ensures OrderAmounts(u, x) == OrderAmounts(t, x) && LeastOrders(u, x) == LeastOrders(t, x)
  {
    assert forall a: Addr :: a.LedgerAt? || a.OrderAt? ==> (a in u <==> a in t) && (a in t ==> u[a] == t[a]);
  }

  lemma OpeningBalances(t: Tables, u: Tables, id: int, userId: int)
    requires OpensWallet(t, u, id, userId) && Fitting(t) && Balanced(t)
    ensures Balanced(u)
  {
    OpeningRows(t, u, id, userId);
    forall w | HasWallet(u, w)
      ensures WalletBalanced(u, w)
    {
      OpeningSums(t, u, id, userId, w, WalletIn(u, w).userId);
      if w == id {
        NothingYet(t, id, userId);
      } else {
        assert WalletBalanced(t, w);
      }
    }
  }

  lemma OpeningBooks(t: Tables, u: Tables, id: int, userId: int)
    requires OpensWallet(t, u, id, userId) && Books(t)
    ensures Books(u)
  {
    OpeningBalances(t, u, id, userId);
    OpeningRows(t, u, id, userId);
    forall o | HasOrder(u, o)
      ensures exists w :: HasWallet(u, w) && WalletIn(u, w).userId == OrderIn(u, o).userId
    {
      var w :| HasWallet(t, w) && WalletIn(t, w).userId == OrderIn(t, o).userId;
      assert HasWallet(u, w);
    }
    var f :| PairedBy(t, f);
    assert PairedBy(u, f);
  }

  /** A new user's first wallet: empty, under an id never used, the user's only one, with no ledger
      rows to it and no orders of the user; every other row stays as it is. */
  lemma FirstWallet(s: State, s': State, tid: int)
    requires AccountInv(s)
    requires EnsureForUser(s, tid) == Some(s')
    ensures var w, userId := s.seqs.wallet, s.procs[tid].userId;
            && OpensWallet(s.db, s'.db, w, userId)
            && (forall v :: HasWallet(s'.db, v) && WalletIn(s'.db, v).userId == userId <==> v == w)
            && Topups(s'.db, w) == map[] && Entries(s'.db, w) == map[]
            && OrderAmounts(s'.db, userId) == map[]
    ensures Registration(s') && Books(s'.db)
  {
    var w, userId := s.seqs.wallet, s.procs[tid].userId;
    NotIssuedFree(s, {}, WalletAt(w));
    OpeningBooks(s.db, s'.db, w, userId);
    OpeningRows(s.db, s'.db, w, userId);
    OpeningSums(s.db, s'.db, w, userId, w, userId);
    NothingYet(s.db, w, userId);
  }

  /** A wallet id never used has no ledger rows; a user without a wallet has no orders. */
  lemma NothingYet(t: Tables, w: int, userId: int)
    requires Fitting(t) && !HasWallet(t, w)
    requires forall v :: HasWallet(t, v) ==> WalletIn(t, v).userId != userId
    ensures Topups(t, w) == map[] && Entries(t, w) == map[]
    ensures OrderAmounts(t, userId) == map[] && LeastOrders(t, userId) == {}
  {
    forall a: Addr | a in t && a.LedgerAt? && t[a].LedgerRow?
      ensures t[a].entry.walletId != w
    {
      assert HasEntry(t, a.id);
    }
    forall a: Addr | a in t && a.OrderAt? && t[a].OrderRow?
      ensures t[a].order.userId != userId
    {
      assert HasOrder(t, a.id);
    }
  }

  lemma BuyingKeepsOwners(t: Tables, u: Tables, p: Buyer)
    requires Buys(t, u, p) || Deposits(t, u, p)
    ensures forall w :: HasWallet(u, w) ==> HasWallet(t, w) && WalletIn(u, w).userId == WalletIn(t, w).userId
    ensures forall a :: a in t ==> a in u
  {
  }

  lemma AdvanceAccounts(s: State, s': State, tid: int, p: Buyer, heard: bool)
    requires AccountInv(s) && tid in s.procs && s.procs[tid] == Buying(p)
    requires AdvanceBuyer(s, tid, p, heard) == Some(s')
    ensures Books(s'.db)
    ensures s'.db == s.db || Buys(s.db, s'.db, p) || Deposits(s.db, s'.db, p)
  {
    AdvanceEffect(s, s', tid, p, heard);
    if Serializable.Ready(p) {
      if p.call.TopUp? {
        DepositBooks(s.db, s'.db, p);
      } else {
        PurchaseBooks(s.db, s'.db, p);
      }
    }
  }

  lemma RegisterAccounts(s: State, s': State, tid: int, email: string)
    requires AccountInv(s)
    requires RegisterUser(s, tid, email) == Some(s')
    ensures Registration(s')
  {
    NotIssuedFree(s, {}, UserAt(s.seqs.user));
    forall w | HasWallet(s'.db, w)
      ensures HasWallet(s.db, w) && WalletIn(s'.db, w) == WalletIn(s.db, w)
    {
    }
  }

  /** Wallets and users as before, and no new Register call. */
  lemma QuietRegistration(s: State, s': State)
    requires Registration(s)
    requires forall w :: HasWallet(s'.db, w) ==>
             HasWallet(s.db, w) && WalletIn(s'.db, w).userId == WalletIn(s.db, w).userId
    requires forall a :: a in s.db ==> a in s'.db
    requires forall tid :: tid in s'.procs && s'.procs[tid].Registering? ==>
             tid in s.procs && s'.procs[tid] == s.procs[tid]
    ensures Registration(s')
  {
  }

  lemma QuietProcs(s: State, l: Label, s': State)
    requires Next(s, l) == Some(s')
    requires !l.Register?
    ensures forall tid :: tid in s'.procs && s'.procs[tid].Registering? ==>
            tid in s.procs && s'.procs[tid] == s.procs[tid]
  {
  }

  lemma NextAccounts(s: State, l: Label, s': State)
    requires AccountInv(s)
    requires Next(s, l) == Some(s')
    ensures AccountInv(s')
  {
    NextKeepsCore(s, l, s');
    if l.Advance? {
      var p := s.procs[l.tid].buyer;
      AdvanceAccounts(s, s', l.tid, p, l.heard);
      if s'.db != s.db {
        BuyingKeepsOwners(s.db, s'.db, p);
      }
      QuietProcs(s, l, s');
      QuietRegistration(s, s');
    } else if l.EnsureWallet? {
      FirstWallet(s, s', l.tid);
    } else {
      QuietStep(s, l, s');
      QuietRows(s.db, s'.db);
      QuietBooks(s.db, s'.db);
      if l.Register? {
        RegisterAccounts(s, s', l.tid, l.email);
      } else {
        QuietProcs(s, l, s');
        QuietRegistration(s, s');
      }
    }
  }

  lemma {:induction false} RunAccounts(s: State, ls: seq<Label>, s': State)
    requires AccountInv(s)
    requires Run(s, ls) == Some(s')
    ensures AccountInv(s')
    decreases |ls|
  {
    if ls != [] {
      var mid := Next(s, ls[0]).value;
      NextAccounts(s, ls[0], mid);
      RunAccounts(mid, ls[1..], s');
    }
  }

  lemma InitialAccounts()
    ensures AccountInv(INITIAL)
  {
    assert PairedBy(map[], map[]);
  }

  lemma ReachableAccounts(s: State)
    requires Reachable(s)
    ensures AccountInv(s)
  {
    var ls :| Run(INITIAL, ls) == Some(s);
    InitialAccounts();
    RunAccounts(INITIAL, ls, s);
  }

  /** In every reachable state a user has at most one wallet. */
  lemma AtMostOneWallet(s: State, v: int, w: int)
    requires Reachable(s)
    requires HasWallet(s.db, v) && HasWallet(s.db, w) && WalletIn(s.db, v).userId == WalletIn(s.db, w).userId
    ensures v == w
  {
    ReachableAccounts(s);
  }

  /** Conservation: a balance is the user's top-ups less the user's order amounts. */
  lemma BalanceConserved(s: State, w: int)
    requires Reachable(s) && HasWallet(s.db, w)
    ensures WalletIn(s.db, w).balance ==
            Total(Topups(s.db, w)) - Total(OrderAmounts(s.db, WalletIn(s.db, w).userId))
  {
    ReachableAccounts(s);
    assert WalletBalanced(s.db, w);
  }

  /** The ledger of a wallet adds up to its balance exactly when the user has no order whose
      amount is the least int64. */
  lemma LedgerAgrees(s: State, w: int)
    requires Reachable(s) && HasWallet(s.db, w)
    ensures Total(Entries(s.db, w)) == WalletIn(s.db, w).balance <==> LeastOrders(s.db, WalletIn(s.db, w).userId) == {}
  {
    ReachableAccounts(s);
    assert WalletBalanced(s.db, w);
  }

  /** Orders and order_debit rows correspond one to one, with the amount negated. */
  lemma OneDebitPerOrder(s: State)
    requires Reachable(s)
    ensures exists f :: PairedBy(s.db, f)
  {
    ReachableAccounts(s);
  }

  /** The same users in both. */
  ghost predicate SameUsers(t: Tables, u: Tables) {
    forall a: Addr :: a.UserAt? ==> (a in u <==> a in t) && (a in t ==> u[a] == t[a])
  }

  lemma AdvanceSameUsers(s: State, s': State, tid: int, p: Buyer, heard: bool)
    requires Core(s) && tid in s.procs && s.procs[tid] == Buying(p)
    requires AdvanceBuyer(s, tid, p, heard) == Some(s')
    ensures SameUsers(s.db, s'.db)
  {
    AdvanceEffect(s, s', tid, p, heard);
    if Serializable.Ready(p) {
      BuyingSameUsers(s.db, s'.db, p);
    }
  }

  lemma BuyingSameUsers(t: Tables, u: Tables, p: Buyer)
    requires Buys(t, u, p) || Deposits(t, u, p)
    ensures SameUsers(t, u)
  {
    assert forall a: Addr :: a.UserAt? ==> a !in PurchaseRows(p);
  }

  lemma WorkSameUsers(s: State, s': State, tid: int, w: W.Worker, answer: Option<int>, heard: bool)
    requires Core(s) && tid in s.procs && s.procs[tid] == Working(w)
    requires AdvanceWorker(s, tid, w, answer, heard) == Some(s')
    ensures SameUsers(s.db, s'.db)
  {
    assert ProcInv(s.db, s.procs[tid]);
  }

  lemma OthersSameUsers(s: State, l: Label, s': State)
    requires Next(s, l) == Some(s') && !l.Register? && !l.Advance? && !l.Work?
    ensures SameUsers(s.db, s'.db)
  {
  }

  /** No two users have one email. */
  ghost predicate UniqueEmails(t: Tables) {
    forall u, v :: UserAt(u) in t && UserAt(v) in t && t[UserAt(u)] == t[UserAt(v)] ==> u == v
  }

  lemma NextUsers(s: State, l: Label, s': State)
    requires Core(s) && UniqueEmails(s.db) && Next(s, l) == Some(s')
    ensures UniqueEmails(s'.db)
  {
    if l.Advance? {
      AdvanceSameUsers(s, s', l.tid, s.procs[l.tid].buyer, l.heard);
    } else if l.Work? {
      WorkSameUsers(s, s', l.tid, s.procs[l.tid].worker, l.answer, l.heard);
    } else if !l.Register? {
      OthersSameUsers(s, l, s');
    }
  }

  lemma {:induction false} RunUsers(s: State, ls: seq<Label>, s': State)
    requires Core(s) && UniqueEmails(s.db) && Run(s, ls) == Some(s')
    ensures UniqueEmails(s'.db)
    decreases |ls|
  {
    if ls != [] {
      var mid := Next(s, ls[0]).value;
      NextKeepsCore(s, ls[0], mid);
      NextUsers(s, ls[0], mid);
      RunUsers(mid, ls[1..], s');
    }
  }

  /** In every reachable state no two users have registered with one email. */
  lemma EmailsUnique(s: State)
    requires Reachable(s)
    ensures UniqueEmails(s.db)
  {
    var ls :| Run(INITIAL, ls) == Some(s);
    InitialCore();
    RunUsers(INITIAL, ls, s);
  }
}
