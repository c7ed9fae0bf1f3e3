/** Every reply of a call that runs alone, in terms of the rows: which error it gives and when, and
    when a Create is a duplicate. */
module Refusals {
  import opened Schema
  import opened Repository
  import opened Calls
  import opened Local
  import opened Engine
  import opened Serializable
  import Sequential
  import Outcomes
  import Retries

  /** The user's wallet; of several, the one with the least id. */
  ghost predicate IsWalletOf(t: Tables, userId: int, w: int) {
    && HasWallet(t, w) && WalletIn(t, w).userId == userId
    && forall x :: HasWallet(t, x) && WalletIn(t, x).userId == userId ==> w <= x
  }

  ghost predicate HasNoWallet(t: Tables, userId: int) {
    forall w :: HasWallet(t, w) ==> WalletIn(t, w).userId != userId
  }

  lemma WalletRead(t: Tables, userId: int)
    ensures WalletOf(t, userId).None? <==> HasNoWallet(t, userId)
    ensures forall w :: WalletOf(t, userId) == Some(w) <==> IsWalletOf(t, userId, w)
  {
    var ids := WalletsOf(t, userId);
    assert ids != {} ==> Least(ids) in ids;
    forall w
      ensures WalletOf(t, userId) == Some(w) <==> IsWalletOf(t, userId, w)
    {
      if IsWalletOf(t, userId, w) {
        assert w in ids;
      }
    }
  }

  /** Why paying `price` under the key `k` stops. */
  ghost predicate PaymentStops(t: Tables, k: Addr, userId: int, price: int, e: Error) {
    match e
    case DuplicateKey => k in t
    case NoRows => k !in t && HasNoWallet(t, userId)
    case Insufficient => k !in t && exists w :: IsWalletOf(t, userId, w) && WalletIn(t, w).balance < price
    case OutOfRange =>
      k !in t && exists w :: IsWalletOf(t, userId, w) && price <= WalletIn(t, w).balance &&
                             !IsInt64(WalletIn(t, w).balance - price)
    case _ => false
  }

  /** The key has bought order n. */
  predicate Links(t: Tables, k: Addr, n: int) {
    k in t && t[k] == KeyRow(Some(n)) && n != 0
  }

  ghost predicate IsLinked(t: Tables, k: Addr) {
    exists n :: Links(t, k, n)
  }

  predicate IsOrderOf(t: Tables, vendorId: int, o: int) {
    HasOrder(t, o) && OrderIn(t, o).vendorId == vendorId
  }

  predicate IsItemOf(t: Tables, vendorId: int, c: int) {
    HasItem(t, c) && ItemIn(t, c).vendorId == vendorId
  }

  predicate IsServiceOf(t: Tables, userId: int, sid: int) {
    HasService(t, sid) && ServiceIn(t, sid).userId == userId
  }

  /** Why a Create is refused. */
  ghost predicate CreateStops(t: Tables, v: int, u: int, c: int, key: string, e: Error) {
    var k := KeyAt(v, u, key);
    var anew := key != "" && !IsLinked(t, k);
    var offered := anew && IsItemOf(t, v, c) && ItemIn(t, c).active;
    match e
    case KeyRequired => key == ""
    case Inactive => anew && IsItemOf(t, v, c) && !ItemIn(t, c).active
    case NoRows =>
      || (key != "" && exists n :: Links(t, k, n) && !IsOrderOf(t, v, n))
      || (anew && !IsItemOf(t, v, c))
      || (offered && PaymentStops(t, k, u, ItemIn(t, c).price, NoRows))
    case _ => offered && PaymentStops(t, k, u, ItemIn(t, c).price, e)
  }

  /** Why a Renew is refused; its item need not be active. */
  ghost predicate RenewStops(t: Tables, u: int, sid: int, key: string, e: Error) {
    var own := IsServiceOf(t, u, sid);
    var ordered := own && ServiceIn(t, sid).orderId.Some?;
    var found := ordered && IsOrderOf(t, ServiceIn(t, sid).vendorId, ServiceIn(t, sid).orderId.value);
    var priced :=
      found && IsItemOf(t, ServiceIn(t, sid).vendorId, OrderIn(t, ServiceIn(t, sid).orderId.value).catalogId);
    match e
    case NoOriginalOrder => own && !ordered
    case NoRows => !own || (ordered && !found) || (found && !priced) || (priced && RenewPaymentStops(t, u, sid, key, e))
    case _ => priced && RenewPaymentStops(t, u, sid, key, e)
  }

  ghost predicate RenewPaymentStops(t: Tables, u: int, sid: int, key: string, e: Error)
    requires HasService(t, sid) && ServiceIn(t, sid).orderId.Some? && HasOrder(t, ServiceIn(t, sid).orderId.value)
    requires HasItem(t, OrderIn(t, ServiceIn(t, sid).orderId.value).catalogId)
  {
    var price := ItemIn(t, OrderIn(t, ServiceIn(t, sid).orderId.value).catalogId).price;
    PaymentStops(t, KeyAt(ServiceIn(t, sid).vendorId, u, key), u, price, e)
  }

  /** Why a top-up is refused. */
  ghost predicate TopUpStops(t: Tables, u: int, amount: int, e: Error) {
    match e
    case NoRows => HasNoWallet(t, u)
    case OutOfRange => exists w :: IsWalletOf(t, u, w) && !IsInt64(WalletIn(t, w).balance + amount)
    case _ => false
  }

  ghost predicate CallStops(t: Tables, call: Call, e: Error) {
    match call
    case Create(v, u, c, key) => CreateStops(t, v, u, c, key, e)
    case Renew(u, sid, key) => RenewStops(t, u, sid, key, e)
    case TopUp(u, amount) => TopUpStops(t, u, amount, e)
  }

  /** The call's own success. */
  function Success(ids: Ids, call: Call): Calls.Reply {
    if call.TopUp? then Applied else Placed(ids.order, StateApproved, StatePending, false)
  }

  /** From the update of the balance on nothing refuses. */
  lemma {:induction false} TailSucceeds(t: Tables, ids: Ids, q: Buyer)
    requires OnPath(q) && Rank(q.pc) >= 6 && (Rank(q.pc) >= 8 ==> q.ids.order == ids.order)
    ensures Solo(t, ids, q, {}).reply == Success(ids, q.call)
    decreases 12 - Rank(q.pc)
  {
    OnlyReadyCommits(t, ids, q);
    if !Ready(q) {
      TailGoesOn(t, ids, q);
      TailStays(t, ids, q);
      TailSucceeds(t, ids, Statement(t, ids, q).next);
    }
  }

  lemma TailStays(t: Tables, ids: Ids, q: Buyer)
    requires OnPath(q) && Rank(q.pc) >= 6 && (Rank(q.pc) >= 8 ==> q.ids.order == ids.order)
    requires Statement(t, ids, q).Continue?
    ensures var next := Statement(t, ids, q).next;
            OnPath(next) && next.call == q.call && Rank(next.pc) > 6 &&
            (Rank(next.pc) >= 8 ==> next.ids.order == ids.order)
  {
  }

  /** The update of the balance. */
  lemma UpdateReplies(t: Tables, ids: Ids, q: Buyer)
    requires q.pc.WalletLocked? && OnPath(q) && HasWallet(t, q.wallet) && WalletAt(q.wallet) !in q.writes
    ensures Solo(t, ids, q, {}).reply ==
            if IsInt64(NewBalance(q, WalletIn(t, q.wallet).balance)) then Success(ids, q.call) else Refused(OutOfRange)
  {
    if UpdateBalance(t + q.writes, q).Continue? {
      TailSucceeds(t, ids, UpdateBalance(t + q.writes, q).next);
    }
  }

  /** The locked read, when the key has been reserved. */
  lemma LockReplies(t: Tables, ids: Ids, q: Buyer)
    requires q.pc.Reserved? && OnPath(q) && q.writes == map[KeyOf(q) := KeyRow(None)]
    ensures var w := WalletOf(t, q.call.userId);
            Solo(t, ids, q, {}).reply ==
            if w.None? then Refused(NoRows)
            else if WalletIn(t, w.value).balance < q.price then Refused(Insufficient)
            else if !IsInt64(WalletIn(t, w.value).balance - q.price) then Refused(OutOfRange)
            else Success(ids, q.call)
  {
    assert WalletsOf(t + q.writes, q.call.userId) == WalletsOf(t, q.call.userId);
    if LockWallet(t + q.writes, q).Continue? {
      UpdateReplies(t, ids, LockWallet(t + q.writes, q).next);
    }
  }

  /** The payment, from the reservation of its key. */
  lemma PaymentReplies(t: Tables, ids: Ids, q: Buyer, e: Error)
    requires q.pc.Priced? && OnPath(q) && q.writes == map[]
    ensures Solo(t, ids, q, {}).reply == Refused(e) <==> PaymentStops(t, KeyOf(q), q.call.userId, q.price, e)
    ensures Solo(t, ids, q, {}).reply.Refused? || Solo(t, ids, q, {}).reply == Success(ids, q.call)
  {
    WalletRead(t, q.call.userId);
    if KeyOf(q) !in t {
      var next := ReserveKey(t + q.writes, q).next;
      LockReplies(t, ids, next);
      if WalletOf(t, q.call.userId).Some? {
        assert IsWalletOf(t, q.call.userId, WalletOf(t, q.call.userId).value);
      }
    }
  }

  /** A Create past its lookups. */
  lemma CreateToPayment(t: Tables, ids: Ids, v: int, u: int, c: int, key: string, began: int) returns (q: Buyer)
    requires key != "" && !IsLinked(t, KeyAt(v, u, key)) && IsItemOf(t, v, c) && ItemIn(t, c).active
    ensures q.pc.Priced? && OnPath(q) && q.writes == map[] && q.call == Create(v, u, c, key)
    ensures KeyOf(q) == KeyAt(v, u, key) && q.price == ItemIn(t, c).price
    ensures Solo(t, ids, q, {}) == RunAlone(t, ids, Create(v, u, c, key), began, {})
  {
    var p := Begin(Create(v, u, c, key), began);
    NotLinked(t, KeyAt(v, u, key));
    var r := Statement(t, ids, p).next;
    assert Solo(t, ids, p, {}) == Solo(t, ids, r, {});
    q := Statement(t, ids, r).next;
  }

  lemma NotLinked(t: Tables, k: Addr)
    ensures Resolve(t, k) != 0 <==> IsLinked(t, k)
    ensures Resolve(t, k) != 0 ==> Links(t, k, Resolve(t, k))
  {
    if IsLinked(t, k) {
      var n :| Links(t, k, n);
    } else if Resolve(t, k) != 0 {
      assert Links(t, k, Resolve(t, k));
    }
  }

  /** A Create stopped by its lookups, or answered by its key's order. */
  lemma CreateLookups(t: Tables, ids: Ids, v: int, u: int, c: int, key: string, began: int)
    requires key == "" || IsLinked(t, KeyAt(v, u, key)) || !IsItemOf(t, v, c) || !ItemIn(t, c).active
    ensures var r := RunAlone(t, ids, Create(v, u, c, key), began, {}).reply;
            var n := Resolve(t, KeyAt(v, u, key));
            r == if key == "" then Refused(KeyRequired)
                 else if n != 0 then
                   if IsOrderOf(t, v, n) then Placed(n, OrderIn(t, n).status, OrderIn(t, n).lifecycle, true)
                   else Refused(NoRows)
                 else if !IsItemOf(t, v, c) then Refused(NoRows)
                 else Refused(Inactive)
  {
    var p := Begin(Create(v, u, c, key), began);
    NotLinked(t, KeyAt(v, u, key));
    if key != "" {
      var q := Statement(t, ids, p).next;
      assert Solo(t, ids, p, {}) == Solo(t, ids, q, {});
    }
  }

  lemma CreateReplies(t: Tables, ids: Ids, v: int, u: int, c: int, key: string, began: int, e: Error)
    ensures var r := RunAlone(t, ids, Create(v, u, c, key), began, {}).reply;
            r == Refused(e) <==> CreateStops(t, v, u, c, key, e)
  {
    NotLinked(t, KeyAt(v, u, key));
    if key != "" && !IsLinked(t, KeyAt(v, u, key)) && IsItemOf(t, v, c) && ItemIn(t, c).active {
      var q := CreateToPayment(t, ids, v, u, c, key, began);
      PaymentReplies(t, ids, q, e);
    } else {
      CreateLookups(t, ids, v, u, c, key, began);
    }
  }

  /** A Renew past its lookups. */
  lemma RenewToPayment(t: Tables, ids: Ids, u: int, sid: int, key: string, began: int) returns (q: Buyer)
    requires IsServiceOf(t, u, sid) && ServiceIn(t, sid).orderId.Some?
    requires IsOrderOf(t, ServiceIn(t, sid).vendorId, ServiceIn(t, sid).orderId.value)
    requires IsItemOf(t, ServiceIn(t, sid).vendorId, OrderIn(t, ServiceIn(t, sid).orderId.value).catalogId)
    ensures q.pc.Priced? && OnPath(q) && q.writes == map[] && q.call == Renew(u, sid, key)
    ensures KeyOf(q) == KeyAt(ServiceIn(t, sid).vendorId, u, key)
    ensures q.price == ItemIn(t, OrderIn(t, ServiceIn(t, sid).orderId.value).catalogId).price
    ensures Solo(t, ids, q, {}) == RunAlone(t, ids, Renew(u, sid, key), began, {})
  {
    var p := Begin(Renew(u, sid, key), began);
    var r := Statement(t, ids, p).next;
    assert Solo(t, ids, p, {}) == Solo(t, ids, r, {});
    var o := Statement(t, ids, r).next;
    assert Solo(t, ids, r, {}) == Solo(t, ids, o, {});
    q := Statement(t, ids, o).next;
  }

  /** A Renew stopped by its lookups. */
  lemma RenewLookups(t: Tables, ids: Ids, u: int, sid: int, key: string, began: int)
    requires IsServiceOf(t, u, sid) && ServiceIn(t, sid).orderId.Some? ==>
               var v, o := ServiceIn(t, sid).vendorId, ServiceIn(t, sid).orderId.value;
               IsOrderOf(t, v, o) ==> !IsItemOf(t, v, OrderIn(t, o).catalogId)
    ensures RunAlone(t, ids, Renew(u, sid, key), began, {}).reply ==
            Refused(if IsServiceOf(t, u, sid) && ServiceIn(t, sid).orderId.None? then NoOriginalOrder else NoRows)
  {
    var p := Begin(Renew(u, sid, key), began);
    if IsServiceOf(t, u, sid) && ServiceIn(t, sid).orderId.Some? {
      var r := Statement(t, ids, p).next;
      assert Solo(t, ids, p, {}) == Solo(t, ids, r, {});
      if IsOrderOf(t, ServiceIn(t, sid).vendorId, ServiceIn(t, sid).orderId.value) {
        var o := Statement(t, ids, r).next;
        assert Solo(t, ids, r, {}) == Solo(t, ids, o, {});
      }
    }
  }

  lemma RenewReplies(t: Tables, ids: Ids, u: int, sid: int, key: string, began: int, e: Error)
    ensures RunAlone(t, ids, Renew(u, sid, key), began, {}).reply == Refused(e) <==> RenewStops(t, u, sid, key, e)
  {
    if IsServiceOf(t, u, sid) && ServiceIn(t, sid).orderId.Some? &&
       IsOrderOf(t, ServiceIn(t, sid).vendorId, ServiceIn(t, sid).orderId.value) &&
       IsItemOf(t, ServiceIn(t, sid).vendorId, OrderIn(t, ServiceIn(t, sid).orderId.value).catalogId) {
      var q := RenewToPayment(t, ids, u, sid, key, began);
      PaymentReplies(t, ids, q, e);
    } else {
      RenewLookups(t, ids, u, sid, key, began);
    }
  }

  lemma TopUpReplies(t: Tables, ids: Ids, u: int, amount: int, began: int, e: Error)
    ensures RunAlone(t, ids, TopUp(u, amount), began, {}).reply == Refused(e) <==> TopUpStops(t, u, amount, e)
  {
    var p := Begin(TopUp(u, amount), began);
    WalletRead(t, u);
    if WalletOf(t, u).Some? {
      var q := Statement(t, ids, p).next;
      assert Solo(t, ids, p, {}) == Solo(t, ids, q, {});
      UpdateReplies(t, ids, q);
      assert IsWalletOf(t, u, WalletOf(t, u).value);
    }
  }

  /** A call that runs alone is refused with exactly the error of the first of its checks that the
      rows fail. */
  lemma RefusedIff(t: Tables, ids: Ids, call: Call, began: int, e: Error)
    ensures RunAlone(t, ids, call, began, {}).reply == Refused(e) <==> CallStops(t, call, e)
  {
    match call
    case Create(v, u, c, key) => CreateReplies(t, ids, v, u, c, key, began, e);
    case Renew(u, sid, key) => RenewReplies(t, ids, u, sid, key, began, e);
    case TopUp(u, amount) => TopUpReplies(t, ids, u, amount, began, e);
  }

  /** A Create is answered as a duplicate exactly when its key is linked to an order of its vendor:
      by that order, in the state it is in. */
  lemma DuplicateIff(t: Tables, ids: Ids, call: Call, began: int, n: int, status: OrderState, lifecycle: OrderState)
    ensures RunAlone(t, ids, call, began, {}).reply == Placed(n, status, lifecycle, true) <==>
            && call.Create? && call.key != "" && Links(t, KeyAt(call.vendorId, call.userId, call.key), n)
            && IsOrderOf(t, call.vendorId, n)
            && OrderIn(t, n).status == status && OrderIn(t, n).lifecycle == lifecycle
  {
    match call
    case Create(v, u, c, key) =>
      NotLinked(t, KeyAt(v, u, key));
      if key != "" && !IsLinked(t, KeyAt(v, u, key)) && IsItemOf(t, v, c) && ItemIn(t, c).active {
        var q := CreateToPayment(t, ids, v, u, c, key, began);
        PaymentReplies(t, ids, q, Fault);
      } else {
        CreateLookups(t, ids, v, u, c, key, began);
      }
    case _ => OtherReplies(t, ids, call, began);
  }

  /** No other call is ever a duplicate. */
  lemma OtherReplies(t: Tables, ids: Ids, call: Call, began: int)
    requires !call.Create?
    ensures var r := RunAlone(t, ids, call, began, {}).reply; r.Refused? || r == Success(ids, call)
  {
    match call
    case Renew(u, sid, key) =>
      if IsServiceOf(t, u, sid) && ServiceIn(t, sid).orderId.Some? &&
         IsOrderOf(t, ServiceIn(t, sid).vendorId, ServiceIn(t, sid).orderId.value) &&
         IsItemOf(t, ServiceIn(t, sid).vendorId, OrderIn(t, ServiceIn(t, sid).orderId.value).catalogId) {
        var q := RenewToPayment(t, ids, u, sid, key, began);
        PaymentReplies(t, ids, q, Fault);
      } else {
        RenewLookups(t, ids, u, sid, key, began);
      }
    case TopUp(u, amount) =>
      WalletRead(t, u);
      if WalletOf(t, u).Some? {
        var q := Statement(t, ids, Begin(call, began)).next;
        assert RunAlone(t, ids, call, began, {}) == Solo(t, ids, q, {});
        UpdateReplies(t, ids, q);
      }
  }

  /** The methods' replies too, when nothing failed or went unheard. */
  lemma EndedIff(t: Tables, a: Seqs, call: Call, began: int, u: Tables, b: Seqs, reply: Calls.Reply, e: Error)
    requires Sequential.Ended(t, a, Begin(call, began), {}, u, b, reply) && reply != Refused(Fault)
    ensures reply == Refused(e) <==> CallStops(t, call, e)
  {
    RefusedIff(t, SequenceIds(a), call, began, e);
  }

  /** A renewal by anyone but the service's owner is refused, as if there were no such service, and
      changes nothing. */
  lemma RenewByStranger(t: Tables, ids: Ids, call: Call, began: int, faults: set<Pc>)
    requires call.Renew? && (HasService(t, call.serviceId) ==> ServiceIn(t, call.serviceId).userId != call.userId)
    ensures RunAlone(t, ids, call, began, {}) == Result(t, Refused(NoRows))
    ensures RunAlone(t, ids, call, began, faults).tables == t
  {
    RefusedIff(t, ids, call, began, NoRows);
    Outcomes.FailureChangesNothing(t, ids, Begin(call, began), {});
    var p := Begin(call, began);
    assert Statement(t, ids, p).Failed?;
  }

  /** Over runs, every committed renewal is by the owner of its service. */
  lemma RenewedByOwner(s: State, i: nat)
    requires Reachable(s) && i < |s.log| && s.log[i].Bought? && s.log[i].call.Renew?
    ensures HasService(s.db, s.log[i].call.serviceId)
    ensures ServiceIn(s.db, s.log[i].call.serviceId).userId == s.log[i].call.userId
  {
    Retries.ReachableLogged(s);
    assert Retries.EntrySound(s.db, s.log[i]);
  }
}
