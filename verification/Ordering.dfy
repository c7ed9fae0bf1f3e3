/** Orders, idempotency keys and answers: each key buys one order, once, whatever the
    interleaving, and every order is for an active item of its own vendor at its price. */
module Ordering {
  import opened Schema
  import opened Repository
  import opened Calls
  import opened Isolation
  import opened Local
  import opened Engine
  import opened CoreInvariant
  import opened CoreSteps
  import opened Effects
  import Serializable

  ghost predicate OrderSound(t: Tables, o: int)
    requires HasOrder(t, o)
  {
    var r := OrderIn(t, o);
    && KeyAt(r.vendorId, r.userId, r.key) in t && t[KeyAt(r.vendorId, r.userId, r.key)] == KeyRow(Some(o))
    && PriceOf(t, r.vendorId, r.catalogId).Some?
    && ItemIn(t, r.catalogId).active && ItemIn(t, r.catalogId).price == r.amount
    && r.status == StateApproved && r.lifecycle == StatePending
  }

  /** A key row names an order, and that order carries the key. */
  ghost predicate KeySound(t: Tables, k: Addr)
    requires k in t
  {
    && t[k].KeyRow? && t[k].orderId.Some?
    && var o := t[k].orderId.value;
       && HasOrder(t, o)
       && k == KeyAt(OrderIn(t, o).vendorId, OrderIn(t, o).userId, OrderIn(t, o).key)
  }

  /** Key rows and orders are in bijection, and every order is sound. */
  ghost predicate Orders(t: Tables) {
    && (forall o :: HasOrder(t, o) ==> OrderSound(t, o))
    && (forall k: Addr :: k.KeyAt? && k in t ==> KeySound(t, k))
  }

  /** The order an answer names is the caller's own, under the caller's key. */
  ghost predicate AnswerSound(t: Tables, a: Answer) {
    a.reply.Placed? ==>
      && !a.call.TopUp?
      && HasOrder(t, a.reply.orderId)
      && var o := OrderIn(t, a.reply.orderId);
         && o.userId == a.call.userId && o.key == a.call.key
         && (a.call.Create? ==> o.vendorId == a.call.vendorId)
         && a.reply.status == o.status && a.reply.lifecycle == o.lifecycle
  }

  predicate PlacedAnew(r: Calls.Reply) {
    r.Placed? && !r.duplicate
  }

  ghost predicate Answers(s: State) {
    && (forall tid :: tid in s.answers ==> AnswerSound(s.db, s.answers[tid]))
    && (forall a, b ::
          a in s.answers && b in s.answers && a != b &&
          PlacedAnew(s.answers[a].reply) && PlacedAnew(s.answers[b].reply) ==>
            s.answers[a].reply.orderId != s.answers[b].reply.orderId)
  }

  ghost predicate OrderInv(s: State) {
    Core(s) && Orders(s.db) && Answers(s)
  }

  lemma OrderSoundStays(t: Tables, u: Tables, o: int)
    requires Preserves(t, u, {}) && HasOrder(t, o) && OrderSound(t, o)
    ensures HasOrder(u, o) && OrderSound(u, o)
  {
  }

  lemma KeySoundStays(t: Tables, u: Tables, k: Addr)
    requires Preserves(t, u, {}) && k in t && k.KeyAt? && KeySound(t, k)
    ensures k in u && KeySound(u, k)
  {
  }

  /** No new order or key. */
  lemma QuietOrders(t: Tables, u: Tables)
    requires Preserves(t, u, {}) && SameBooks(t, u) && Orders(t)
    ensures Orders(u)
  {
    forall o | HasOrder(u, o)
      ensures OrderSound(u, o)
    {
      assert SameCore(t[OrderAt(o)], u[OrderAt(o)]);
      OrderSoundStays(t, u, o);
    }
    forall k: Addr | k.KeyAt? && k in u
      ensures KeySound(u, k)
    {
      KeySoundStays(t, u, k);
    }
  }

  /** The item a purchase pays for: active, of the order's vendor, at the price paid. */
  lemma PaidItem(t: Tables, p: Buyer)
    requires BuyerInv(t, p) && Serializable.Ready(p) && !p.call.TopUp? && Orders(t)
    ensures PriceOf(t, p.vendor, p.catalog).Some?
    ensures ItemIn(t, p.catalog).active && ItemIn(t, p.catalog).price == p.price
    ensures p.call.Create? ==> p.vendor == p.call.vendorId
  {
    if p.call.Renew? {
      assert OrderSound(t, p.ref);
    }
  }

  lemma PurchaseOrders(t: Tables, u: Tables, p: Buyer)
    requires Preserves(t, u, {}) && Buys(t, u, p) && Orders(t)
    requires PriceOf(t, p.vendor, p.catalog).Some?
    requires ItemIn(t, p.catalog).active && ItemIn(t, p.catalog).price == p.price
    ensures Orders(u)
  {
    forall o | HasOrder(u, o)
      ensures OrderSound(u, o)
    {
      if o == p.ids.order {
        assert SameCore(t[ItemAt(p.catalog)], u[ItemAt(p.catalog)]);
      } else {
        assert HasOrder(t, o);
        OrderSoundStays(t, u, o);
      }
    }
    forall k: Addr | k.KeyAt? && k in u
      ensures KeySound(u, k)
    {
      if k != KeyOf(p) {
        assert k in t;
        KeySoundStays(t, u, k);
      }
    }
  }

  lemma DepositOrders(t: Tables, u: Tables, p: Buyer)
    requires Preserves(t, u, {}) && Deposits(t, u, p) && Orders(t)
    ensures Orders(u)
  {
    forall o | HasOrder(u, o)
      ensures OrderSound(u, o)
    {
      assert HasOrder(t, o);
      OrderSoundStays(t, u, o);
    }
    forall k: Addr | k.KeyAt? && k in u
      ensures KeySound(u, k)
    {
      assert k in t;
      KeySoundStays(t, u, k);
    }
  }

  lemma WalletOrders(s: State, s': State, tid: int)
    requires EnsureForUser(s, tid) == Some(s') && Preserves(s.db, s'.db, {}) && Orders(s.db)
    ensures Orders(s'.db)
  {
    forall o | HasOrder(s'.db, o)
      ensures OrderSound(s'.db, o)
    {
      assert HasOrder(s.db, o);
      OrderSoundStays(s.db, s'.db, o);
    }
    forall k: Addr | k.KeyAt? && k in s'.db
      ensures KeySound(s'.db, k)
    {
      assert k in s.db;
      KeySoundStays(s.db, s'.db, k);
    }
  }

  /** Holding fewer locks, one sees less preserved. */
  lemma PreservesLess(t: Tables, u: Tables, held: set<Addr>)
    requires Preserves(t, u, held)
    ensures Preserves(t, u, {})
  {
  }

  /** The reply of a Create that hits an existing key. */
  lemma HitReply(s: State, tid: int, p: Buyer)
    requires OrderInv(s) && tid in s.procs && s.procs[tid] == Buying(p) && p.pc.Hit?
    ensures Statement(s.db, SequenceIds(s.seqs), p) == Returned(Placed(p.ref, StateApproved, StatePending, true))
    ensures AnswerSound(s.db, Answer(p.call, Placed(p.ref, StateApproved, StatePending, true)))
  {
  }

  lemma OnlyHitReturns(t: Tables, ids: Ids, p: Buyer)
    requires !p.pc.Hit?
    ensures !Statement(t, ids, p).Returned?
  {
  }

  lemma AdvanceDb(s: State, s': State, tid: int, p: Buyer, heard: bool)
    requires OrderInv(s) && tid in s.procs && s.procs[tid] == Buying(p)
    requires AdvanceBuyer(s, tid, p, heard) == Some(s')
    requires Preserves(s.db, s'.db, {})
    ensures Orders(s'.db)
  {
    AdvanceEffect(s, s', tid, p, heard);
    if Serializable.Ready(p) {
      if p.call.TopUp? {
        DepositOrders(s.db, s'.db, p);
      } else {
        PaidItem(s.db, p);
        PurchaseOrders(s.db, s'.db, p);
      }
    }
  }

  /** What a finished call's answer says of the tables it left. */
  lemma FinalAnswerSound(t: Tables, u: Tables, p: Buyer)
    requires BuyerInv(t, p) && Serializable.Ready(p)
    requires !p.call.TopUp? ==> Buys(t, u, p)
    ensures AnswerSound(u, Answer(p.call, Serializable.FinalReply(p)))
  {
  }

  lemma AddAnswer(s: State, s': State, tid: int, a: Answer)
    requires Answers(s) && Preserves(s.db, s'.db, {})
    requires s'.answers == s.answers[tid := a] && tid !in s.answers
    requires AnswerSound(s'.db, a)
    requires PlacedAnew(a.reply) ==> !HasOrder(s.db, a.reply.orderId)
    ensures Answers(s')
  {
  }

  lemma SameAnswers(s: State, s': State)
    requires Answers(s) && Preserves(s.db, s'.db, {}) && s'.answers == s.answers
    ensures Answers(s')
  {
  }

  lemma CommitAnswers(s: State, s': State, tid: int, p: Buyer, heard: bool)
    requires OrderInv(s) && tid in s.procs && s.procs[tid] == Buying(p) && tid !in s.answers
    requires AdvanceBuyer(s, tid, p, heard) == Some(s') && Serializable.Ready(p)
    requires Preserves(s.db, s'.db, {})
    ensures Answers(s')
  {
    assert BuyerInv(s.db, p);
    Serializable.OnlyReadyCommits(s.db, SequenceIds(s.seqs), p);
    AdvanceEffect(s, s', tid, p, heard);
    FinalAnswerSound(s.db, s'.db, p);
    AddAnswer(s, s', tid, Answer(p.call, if heard then Serializable.FinalReply(p) else Refused(Fault)));
  }

  lemma AdvanceAnswers(s: State, s': State, tid: int, p: Buyer, heard: bool)
    requires OrderInv(s) && tid in s.procs && s.procs[tid] == Buying(p) && tid !in s.answers
    requires AdvanceBuyer(s, tid, p, heard) == Some(s')
    requires Preserves(s.db, s'.db, {})
    ensures Answers(s')
  {
    var ids := SequenceIds(s.seqs);
    assert BuyerInv(s.db, p);
    Serializable.OnlyReadyCommits(s.db, ids, p);
    if Serializable.Ready(p) {
      CommitAnswers(s, s', tid, p, heard);
    } else if p.pc.Hit? {
      HitReply(s, tid, p);
      AddAnswer(s, s', tid, Answer(p.call, Placed(p.ref, StateApproved, StatePending, true)));
    } else {
      OnlyHitReturns(s.db, ids, p);
      match Statement(s.db, ids, p)
      case Continue(_) => SameAnswers(s, s');
      case Failed(e) => AddAnswer(s, s', tid, Answer(p.call, Refused(e)));
    }
  }

  lemma NextOrders(s: State, l: Label, s': State)
    requires OrderInv(s) && s.procs.Keys !! s.answers.Keys
    requires Next(s, l) == Some(s')
    ensures OrderInv(s') && s'.procs.Keys !! s'.answers.Keys
    ensures Preserves(s.db, s'.db, {})
  {
    NextKeepsCore(s, l, s');
    PreservesLess(s.db, s'.db, Locked(s.procs, Actor(l)));
    AnswersApart(s, l, s');
    if l.Advance? {
      AdvanceDb(s, s', l.tid, s.procs[l.tid].buyer, l.heard);
      AdvanceAnswers(s, s', l.tid, s.procs[l.tid].buyer, l.heard);
    } else {
      if l.EnsureWallet? {
        WalletOrders(s, s', l.tid);
      } else {
        QuietStep(s, l, s');
        QuietOrders(s.db, s'.db);
      }
      if s'.answers == s.answers {
        SameAnswers(s, s');
      } else {
        DisruptAnswers(s, l, s');
        AddAnswer(s, s', l.tid, Answer(s.procs[l.tid].buyer.call, Refused(Fault)));
      }
    }
  }

  lemma AnswersApart(s: State, l: Label, s': State)
    requires s.procs.Keys !! s.answers.Keys
    requires Next(s, l) == Some(s')
    ensures s'.procs.Keys !! s'.answers.Keys
  {
  }

  lemma DisruptAnswers(s: State, l: Label, s': State)
    requires Next(s, l) == Some(s') && !l.Advance? && s'.answers != s.answers
    ensures l.Disrupt? && l.tid in s.procs && s.procs[l.tid].Buying?
    ensures s'.answers == s.answers[l.tid := Answer(s.procs[l.tid].buyer.call, Refused(Fault))]
  {
  }

  lemma {:induction false} RunOrders(s: State, ls: seq<Label>, s': State)
    requires OrderInv(s) && s.procs.Keys !! s.answers.Keys
    requires Run(s, ls) == Some(s')
    ensures OrderInv(s') && s'.procs.Keys !! s'.answers.Keys
    ensures Preserves(s.db, s'.db, {})
    decreases |ls|
  {
    if ls == [] {
      assert Preserves(s.db, s.db, {});
    } else {
      var mid := Next(s, ls[0]).value;
      NextOrders(s, ls[0], mid);
      RunOrders(mid, ls[1..], s');
      PreservesTrans(s.db, mid.db, s'.db, {});
    }
  }

  lemma ReachableOrders(s: State)
    requires Reachable(s)
    ensures OrderInv(s) && s.procs.Keys !! s.answers.Keys
  {
    var ls :| Run(INITIAL, ls) == Some(s);
    InitialCore();
    RunOrders(INITIAL, ls, s);
  }

  /** In every reachable state the idempotency rows and the orders are in bijection. */
  lemma KeysMatchOrders(s: State)
    requires Reachable(s)
    ensures forall k: Addr :: k.KeyAt? && k in s.db ==> KeySound(s.db, k)
    ensures forall o :: HasOrder(s.db, o) ==>
              var r := OrderIn(s.db, o);
              KeyAt(r.vendorId, r.userId, r.key) in s.db && s.db[KeyAt(r.vendorId, r.userId, r.key)] == KeyRow(Some(o))
  {
    ReachableOrders(s);
    forall o | HasOrder(s.db, o)
      ensures OrderSound(s.db, o)
    {
    }
  }

  /** Exactly once: all successful answers to Create calls for one key name one order, and at
      most one of them placed it. */
  lemma ExactlyOnce(s: State, a: int, b: int)
    requires Reachable(s)
    requires a in s.answers && b in s.answers
    requires var x := s.answers[a]; var y := s.answers[b];
             && x.call.Create? && y.call.Create? && x.reply.Placed? && y.reply.Placed?
             && x.call.vendorId == y.call.vendorId && x.call.userId == y.call.userId && x.call.key == y.call.key
    ensures s.answers[a].reply.orderId == s.answers[b].reply.orderId
    ensures !s.answers[a].reply.duplicate && !s.answers[b].reply.duplicate ==> a == b
  {
    ReachableOrders(s);
    assert AnswerSound(s.db, s.answers[a]) && AnswerSound(s.db, s.answers[b]);
    assert OrderSound(s.db, s.answers[a].reply.orderId) && OrderSound(s.db, s.answers[b].reply.orderId);
  }

  /** Every order, renewals included, is for an active item of its vendor, at its price, and is
      still in the state it was created in. */
  lemma OrderChain(s: State, o: int)
    requires Reachable(s) && HasOrder(s.db, o)
    ensures var r := OrderIn(s.db, o);
            && HasItem(s.db, r.catalogId)
            && ItemIn(s.db, r.catalogId).vendorId == r.vendorId
            && ItemIn(s.db, r.catalogId).active
            && ItemIn(s.db, r.catalogId).price == r.amount
            && r.status == StateApproved && r.lifecycle == StatePending
  {
    ReachableOrders(s);
    assert OrderSound(s.db, o);
  }

  /** A Create for a committed key, run alone, returns that key's order and changes nothing. */
  lemma HitRunsAlone(t: Tables, ids: Ids, call: Call, began: int, n: int)
    requires call.Create? && call.key != "" && Orders(t)
    requires var k := KeyAt(call.vendorId, call.userId, call.key); k in t && t[k] == KeyRow(Some(n)) && n != 0
    ensures RunAlone(t, ids, call, began, {}) == Result(t, Placed(n, StateApproved, StatePending, true))
  {
    assert KeySound(t, KeyAt(call.vendorId, call.userId, call.key));
    assert OrderSound(t, n);
    var p := Begin(call, began);
    var q := p.(pc := Hit, vendor := call.vendorId, ref := n);
    assert Statement(t, ids, p) == Continue(q);
    assert Solo(t, ids, q, {}) == Result(t, Placed(n, StateApproved, StatePending, true));
  }

  lemma KeyOrderPositive(s: State, k: Addr)
    requires OrderInv(s) && k.KeyAt? && k in s.db
    ensures s.db[k].KeyRow? && s.db[k].orderId.Some? && s.db[k].orderId.value > 0
  {
  }

  /** Idempotent replay: once a key has bought order n, then in any later state of any run
      every Create for the key, whatever its catalog id, returns n, marked as a duplicate, and
      changes nothing. */
  lemma IdempotentReplay(s: State, ls: seq<Label>, s': State, call: Call, n: int, ids: Ids, began: int)
    requires Reachable(s) && Run(s, ls) == Some(s')
    requires call.Create? && call.key != ""
    requires var k := KeyAt(call.vendorId, call.userId, call.key); k in s.db && s.db[k] == KeyRow(Some(n))
    ensures RunAlone(s'.db, ids, call, began, {}) == Result(s'.db, Placed(n, StateApproved, StatePending, true))
  {
    ReachableOrders(s);
    RunOrders(s, ls, s');
    var k := KeyAt(call.vendorId, call.userId, call.key);
    KeyOrderPositive(s, k);
    assert SameCore(s.db[k], s'.db[k]);
    HitRunsAlone(s'.db, ids, call, began, n);
  }

  /** The key of a Create call. */
  predicate For(call: Call, k: Addr) {
    call.Create? && call.key != "" && k == KeyAt(call.vendorId, call.userId, call.key)
  }

  /** Callers for key `k` outside `early` have at most found order n, or have been told so. */
  ghost predicate LateCallers(s: State, early: set<int>, k: Addr, n: int) {
    && (forall tid :: tid in s.procs && tid !in early && s.procs[tid].Buying? && For(s.procs[tid].buyer.call, k) ==>
          var p := s.procs[tid].buyer; p.pc.Start? || (p.pc.Hit? && p.ref == n))
    && (forall tid :: tid in s.answers && tid !in early && For(s.answers[tid].call, k) ==>
          s.answers[tid].reply == Refused(Fault) ||
            s.answers[tid].reply == Placed(n, StateApproved, StatePending, true))
  }

  lemma LateAdvance(s: State, tid: int, p: Buyer, k: Addr, n: int)
    requires OrderInv(s) && tid in s.procs && s.procs[tid] == Buying(p)
    requires For(p.call, k) && k in s.db && s.db[k] == KeyRow(Some(n))
    requires p.pc.Start? || (p.pc.Hit? && p.ref == n)
    ensures var out := Statement(s.db, SequenceIds(s.seqs), p);
            (out.Continue? && out.next.pc.Hit? && out.next.ref == n && out.next.call == p.call) ||
            out == Returned(Placed(n, StateApproved, StatePending, true))
  {
  }

  lemma NextLate(s: State, l: Label, s': State, early: set<int>, k: Addr, n: int)
    requires OrderInv(s) && s.procs.Keys !! s.answers.Keys
    requires k.KeyAt? && k in s.db && s.db[k] == KeyRow(Some(n))
    requires LateCallers(s, early, k, n)
    requires Next(s, l) == Some(s')
    ensures LateCallers(s', early, k, n)
  {
    if l.Advance? {
      var p := s.procs[l.tid].buyer;
      if l.tid !in early && For(p.call, k) {
        LateAdvance(s, l.tid, p, k, n);
      } else {
        AdvanceSameCall(s, s', l.tid, p, l.heard);
      }
    } else {
      OthersLate(s, l, s', early, k, n);
    }
  }

  lemma ContinuesCall(t: Tables, ids: Ids, p: Buyer)
    ensures Statement(t, ids, p).Continue? ==> Statement(t, ids, p).next.call == p.call
  {
  }

  lemma AdvanceSameCall(s: State, s': State, tid: int, p: Buyer, heard: bool)
    requires tid in s.procs && s.procs[tid] == Buying(p)
    requires AdvanceBuyer(s, tid, p, heard) == Some(s')
    ensures forall t :: t != tid ==> (t in s'.procs <==> t in s.procs) && (t in s.procs ==> s'.procs[t] == s.procs[t])
    ensures tid in s'.procs ==> s'.procs[tid].Buying? && s'.procs[tid].buyer.call == p.call
    ensures s'.answers == s.answers || exists r :: s'.answers == s.answers[tid := Answer(p.call, r)]
  {
    ContinuesCall(s.db, SequenceIds(s.seqs), p);
    if s'.answers != s.answers {
      assert s'.answers == s.answers[tid := Answer(p.call, s'.answers[tid].reply)];
    }
  }

  lemma OthersLate(s: State, l: Label, s': State, early: set<int>, k: Addr, n: int)
    requires LateCallers(s, early, k, n)
    requires Next(s, l) == Some(s') && !l.Advance?
    ensures LateCallers(s', early, k, n)
  {
    if s'.answers != s.answers {
      DisruptAnswers(s, l, s');
    }
    BuyersOnlyBegin(s, l, s');
  }

  lemma BuyersOnlyBegin(s: State, l: Label, s': State)
    requires Next(s, l) == Some(s') && !l.Advance?
    ensures forall tid :: tid in s'.procs && s'.procs[tid].Buying? ==>
              (tid in s.procs && s'.procs[tid] == s.procs[tid]) || s'.procs[tid].buyer.pc.Start?
  {
  }

  lemma {:induction false} RunLate(s: State, ls: seq<Label>, s': State, early: set<int>, k: Addr, n: int)
    requires OrderInv(s) && s.procs.Keys !! s.answers.Keys
    requires k.KeyAt? && k in s.db && s.db[k] == KeyRow(Some(n))
    requires LateCallers(s, early, k, n)
    requires Run(s, ls) == Some(s')
    ensures LateCallers(s', early, k, n)
    decreases |ls|
  {
    if ls != [] {
      var mid := Next(s, ls[0]).value;
      NextLate(s, ls[0], mid, early, k, n);
      NextOrders(s, ls[0], mid);
      assert SameCore(s.db[k], mid.db[k]);
      RunLate(mid, ls[1..], s', early, k, n);
    }
  }

  /** The same under interleaving: every Create for the key that is submitted after the key has
      bought order n is answered, if at all, by n as a duplicate, unless one of its statements
      fails for a reason outside the model. */
  lemma LateCreateReturnsOrder(s: State, ls: seq<Label>, s': State, k: Addr, n: int, tid: int)
    requires Reachable(s) && Run(s, ls) == Some(s')
    requires k.KeyAt? && k in s.db && s.db[k] == KeyRow(Some(n))
    requires tid !in s.procs && tid !in s.answers
    requires tid in s'.answers && For(s'.answers[tid].call, k)
    ensures s'.answers[tid].reply == Placed(n, StateApproved, StatePending, true) ||
            s'.answers[tid].reply == Refused(Fault)
  {
    ReachableOrders(s);
    RunLate(s, ls, s', s.procs.Keys + s.answers.Keys, k, n);
  }
}
