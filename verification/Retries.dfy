/** What an answer tells about the commit behind it, and what trying a call again does. The log
    and the answers only grow, so what holds in every state that has them holds ever after. */
module Retries {
  import opened Schema
  import opened Repository
  import opened Calls
  import opened Isolation
  import opened Local
  import opened Engine
  import opened CoreInvariant
  import opened CoreSteps
  import opened Effects
  import opened Serializable
  import opened Ordering
  import opened Outcomes

  ghost predicate Apart(s: State) {
    s.procs.Keys !! s.answers.Keys
  }

  /** The call's commit took effect. */
  ghost predicate HasCommitted(s: State, tid: int) {
    exists i :: 0 <= i < |s.log| && s.log[i].Bought? && s.log[i].tid == tid
  }

  /** The labels so far tell of each logged call whether it was answered by a fault. */
  ghost predicate Told(past: seq<Label>, s: State) {
    && (forall i :: 0 <= i < |s.log| && s.log[i].Bought? ==>
          var tid := s.log[i].tid;
          tid in s.answers && (s.answers[tid].reply == Refused(Fault) <==> Advance(tid, false) in past))
    && (forall tid :: Advance(tid, false) in past ==> HasCommitted(s, tid))
  }

  /** One step: the answers stay, and a new entry is that of the process that steps. */
  lemma AdvanceKeepsAnswers(s: State, s': State, tid: int, p: Buyer, heard: bool)
    requires Core(s) && Apart(s) && tid in s.procs && s.procs[tid] == Buying(p)
    requires AdvanceBuyer(s, tid, p, heard) == Some(s')
    ensures forall t :: t in s.answers ==> t in s'.answers && s'.answers[t] == s.answers[t]
    ensures Ready(p) ==> tid in s'.answers && (s'.answers[tid].reply == Refused(Fault) <==> !heard)
    ensures !heard ==> Ready(p)
  {
    assert ProcInv(s.db, s.procs[tid]);
    OnlyReadyCommits(s.db, SequenceIds(s.seqs), p);
  }

  lemma OthersKeepAnswers(s: State, l: Label, s': State)
    requires Apart(s) && Next(s, l) == Some(s') && !l.Advance?
    ensures forall t :: t in s.answers ==> t in s'.answers && s'.answers[t] == s.answers[t]
  {
    if s'.answers != s.answers {
      DisruptAnswers(s, l, s');
    }
  }

  lemma StaysCommitted(s: State, s': State, tid: int)
    requires s.log <= s'.log && HasCommitted(s, tid)
    ensures HasCommitted(s', tid)
  {
    var i :| 0 <= i < |s.log| && s.log[i].Bought? && s.log[i].tid == tid;
    assert s'.log[i] == s.log[i];
  }

  lemma CommittedAnswered(past: seq<Label>, s: State)
    requires Told(past, s)
    ensures forall tid :: HasCommitted(s, tid) ==> tid in s.answers
  {
  }

  lemma AdvanceTold(past: seq<Label>, s: State, l: Label, s': State)
    requires Core(s) && Apart(s) && Told(past, s) && l.Advance? && Next(s, l) == Some(s')
    ensures Told(past + [l], s')
  {
    var p := s.procs[l.tid].buyer;
    AdvanceLogs(s, s', l.tid, p, l.heard);
    AdvanceKeepsAnswers(s, s', l.tid, p, l.heard);
    CommittedAnswered(past, s);
    forall i | 0 <= i < |s'.log| && s'.log[i].Bought?
      ensures s'.log[i].tid in s'.answers
      ensures s'.answers[s'.log[i].tid].reply == Refused(Fault) <==> Advance(s'.log[i].tid, false) in past + [l]
    {
      if i < |s.log| {
        assert s'.log[i] == s.log[i] && s.log[i].tid in s.answers;
      }
    }
    forall tid | Advance(tid, false) in past + [l]
      ensures HasCommitted(s', tid)
    {
      if Advance(tid, false) in past {
        StaysCommitted(s, s', tid);
      } else {
        assert s'.log[|s.log|].tid == tid;
      }
    }
  }

  lemma OthersTold(past: seq<Label>, s: State, l: Label, s': State)
    requires Apart(s) && Told(past, s) && !l.Advance? && Next(s, l) == Some(s')
    ensures Told(past + [l], s')
  {
    OthersLogWrites(s, l, s');
    OthersKeepAnswers(s, l, s');
    forall i | 0 <= i < |s'.log| && s'.log[i].Bought?
      ensures s'.log[i].tid in s'.answers
      ensures s'.answers[s'.log[i].tid].reply == Refused(Fault) <==> Advance(s'.log[i].tid, false) in past + [l]
    {
      assert i < |s.log| && s'.log[i] == s.log[i];
    }
    forall tid | Advance(tid, false) in past + [l]
      ensures HasCommitted(s', tid)
    {
      StaysCommitted(s, s', tid);
    }
  }

  lemma NextTold(past: seq<Label>, s: State, l: Label, s': State)
    requires Core(s) && Apart(s) && Told(past, s) && Next(s, l) == Some(s')
    ensures Core(s') && Apart(s') && Told(past + [l], s')
  {
    NextKeepsCore(s, l, s');
    AnswersApart(s, l, s');
    if l.Advance? {
      AdvanceTold(past, s, l, s');
    } else {
      OthersTold(past, s, l, s');
    }
  }

  lemma {:induction false} RunTold(past: seq<Label>, s: State, ls: seq<Label>, s': State)
    requires Core(s) && Apart(s) && Told(past, s) && Run(s, ls) == Some(s')
    ensures Told(past + ls, s')
    decreases |ls|
  {
    if ls == [] {
      assert past + ls == past;
    } else {
      var mid := Next(s, ls[0]).value;
      NextTold(past, s, ls[0], mid);
      RunTold(past + [ls[0]], mid, ls[1..], s');
      assert past + [ls[0]] + ls[1..] == past + ls;
    }
  }

  /** A call that has committed is answered by no error but a fault: one that reports any other
      error has left no entry in the log. */
  lemma OnlyFaultsHideCommits(s: State, tid: int)
    requires Reachable(s) && tid in s.answers && s.answers[tid].reply.Refused? && HasCommitted(s, tid)
    ensures s.answers[tid].reply == Refused(Fault)
  {
    InterleavingIsSerial(s);
    var i :| 0 <= i < |s.log| && s.log[i].Bought? && s.log[i].tid == tid;
    assert Answered(s, i);
  }

  /** A call has been answered by an error and has nonetheless committed if and only if it took a
      step whose commit went unheard. */
  lemma HiddenCommitIff(ls: seq<Label>, s: State, tid: int)
    requires Run(INITIAL, ls) == Some(s)
    ensures Advance(tid, false) in ls <==>
            tid in s.answers && s.answers[tid].reply.Refused? && HasCommitted(s, tid)
  {
    InitialCore();
    RunTold([], INITIAL, ls, s);
    assert [] + ls == ls;
    if tid in s.answers && s.answers[tid].reply.Refused? && HasCommitted(s, tid) {
      OnlyFaultsHideCommits(s, tid);
    }
  }

  /** Where every acknowledgement is heard, a call that reports an error has placed nothing. */
  lemma HeardErrorsPlaceNothing(ls: seq<Label>, s: State, tid: int)
    requires Run(INITIAL, ls) == Some(s)
    requires forall l :: l in ls && l.Advance? ==> l.heard
    requires tid in s.answers && s.answers[tid].reply.Refused?
    ensures !HasCommitted(s, tid)
  {
    HiddenCommitIff(ls, s, tid);
  }

  /** The order a committed Create or Renew placed is still there, under the call's key. */
  ghost predicate EntrySound(t: Tables, e: Entry) {
    e.Bought? && !e.call.TopUp? ==>
      && HasOrder(t, e.ids.order)
      && var o := OrderIn(t, e.ids.order);
         && o.userId == e.call.userId && o.key == e.call.key
         && (e.call.Create? ==> o.vendorId == e.call.vendorId)
         && (e.call.Renew? ==> RenewsAs(t, e.call, o))
  }

  /** `o` is for the item of the service's original order, at its price. */
  ghost predicate RenewsAs(t: Tables, call: Call, o: Order)
    requires call.Renew?
  {
    && HasService(t, call.serviceId) && ServiceIn(t, call.serviceId).userId == call.userId
    && var row := ServiceIn(t, call.serviceId);
       && row.orderId.Some? && o.vendorId == row.vendorId
       && HasOrder(t, row.orderId.value) && OrderIn(t, row.orderId.value).vendorId == row.vendorId
       && o.catalogId == OrderIn(t, row.orderId.value).catalogId
       && HasItem(t, o.catalogId) && ItemIn(t, o.catalogId).vendorId == row.vendorId
       && o.amount == ItemIn(t, o.catalogId).price
  }

  ghost predicate Logged(s: State) {
    forall i :: 0 <= i < |s.log| ==> EntrySound(s.db, s.log[i])
  }

  lemma EntryStays(t: Tables, u: Tables, e: Entry)
    requires Preserves(t, u, {}) && EntrySound(t, e)
    ensures EntrySound(u, e)
  {
  }

  lemma PurchaseEntry(t: Tables, u: Tables, p: Buyer, tid: int)
    requires BuyerInv(t, p) && Ready(p) && (Buys(t, u, p) || Deposits(t, u, p))
    ensures EntrySound(u, Bought(tid, p.call, p.ids, p.began))
  {
    if p.call.Renew? {
      RenewalEntry(t, u, p);
    }
  }

  lemma RenewalEntry(t: Tables, u: Tables, p: Buyer)
    requires p.call.Renew? && RenewFacts(t, p) && p.pc.Extended? && Buys(t, u, p)
    ensures RenewsAs(u, p.call, OrderOf(p))
  {
    assert OrderAt(p.ref) !in PurchaseRows(p) && ItemAt(p.catalog) !in PurchaseRows(p);
  }

  lemma NextLogged(s: State, l: Label, s': State)
    requires Core(s) && Logged(s)
    requires Next(s, l) == Some(s') && Preserves(s.db, s'.db, {})
    ensures Logged(s')
  {
    if l.Advance? {
      var p := s.procs[l.tid].buyer;
      AdvanceLogs(s, s', l.tid, p, l.heard);
      AdvanceEffect(s, s', l.tid, p, l.heard);
      if Ready(p) {
        assert BuyerInv(s.db, p);
        PurchaseEntry(s.db, s'.db, p, l.tid);
      }
    } else {
      OthersLogWrites(s, l, s');
    }
    forall i | 0 <= i < |s'.log|
      ensures EntrySound(s'.db, s'.log[i])
    {
      if i < |s.log| {
        assert s'.log[i] == s.log[i];
        EntryStays(s.db, s'.db, s.log[i]);
      }
    }
  }

  lemma {:induction false} RunLogged(s: State, ls: seq<Label>, s': State)
    requires OrderInv(s) && s.procs.Keys !! s.answers.Keys && Logged(s)
    requires Run(s, ls) == Some(s')
    ensures Logged(s')
    decreases |ls|
  {
    if ls != [] {
      var mid := Next(s, ls[0]).value;
      NextOrders(s, ls[0], mid);
      NextLogged(s, ls[0], mid);
      RunLogged(mid, ls[1..], s');
    }
  }

  /** A committed purchase is not lost to its caller, even when the acknowledgement of its commit
      was, and the call reported an error: in any later state of any run, a Create with the
      same vendor, user and key returns the order that the first one placed, marked as a
      duplicate, and changes nothing. */
  lemma RetryFindsOrder(s: State, i: nat, ls: seq<Label>, s': State, retry: Call, ids: Ids, began: int)
    requires Reachable(s) && i < |s.log| && s.log[i].Bought? && s.log[i].call.Create?
    requires Run(s, ls) == Some(s')
    requires retry.Create? && retry.key != "" && retry == s.log[i].call.(catalogId := retry.catalogId)
    ensures RunAlone(s'.db, ids, retry, began, {}) ==
            Result(s'.db, Placed(s.log[i].ids.order, StateApproved, StatePending, true))
  {
    var init :| Run(INITIAL, init) == Some(s);
    InitialCore();
    RunLogged(INITIAL, init, s);
    ReachableOrders(s);
    assert EntrySound(s.db, s.log[i]) && OrderSound(s.db, s.log[i].ids.order);
    IdempotentReplay(s, ls, s', retry, s.log[i].ids.order, ids, began);
  }

  lemma ReachableLogged(s: State)
    requires Reachable(s)
    ensures Logged(s)
  {
    var ls :| Run(INITIAL, ls) == Some(s);
    InitialCore();
    RunLogged(INITIAL, ls, s);
  }

  /** The same renewal at another reading of the clock. */
  function Again(call: Call, nano: int): Call
    requires call.Renew?
  {
    Renew(call.userId, call.serviceId, RenewKey(call.serviceId, nano))
  }

  lemma AgainAccepted(t: Tables, call: Call, nano: int, first: int)
    requires call.Renew? && HasOrder(t, first) && RenewsAs(t, call, OrderIn(t, first))
    requires OrderIn(t, first).userId == call.userId
    ensures var o := OrderIn(t, first);
            Accepts(t, Again(call, nano)) <==>
              KeyAt(o.vendorId, o.userId, Again(call, nano).key) !in t && Affords(t, o.userId, o.amount)
  {
  }

  lemma BuysAgain(t: Tables, u: Tables, p: Buyer, first: int)
    requires p.call.Renew? && Pays(t, p) && Buys(t, u, p)
    requires HasOrder(t, first) && RenewsAs(t, p.call, OrderIn(t, first))
    requires OrderIn(t, first).userId == p.call.userId
    ensures p.ids.order != first && HasOrder(u, first)
    ensures OrderOf(p) == OrderIn(t, first).(
              status := StateApproved, lifecycle := StatePending, key := p.call.key, serviceId := None)
  {
    assert OrderAt(first) !in PurchaseRows(p);
  }

  /** The order a renewal places. */
  lemma AgainPlaces(t: Tables, ids: Ids, call: Call, first: int, began: int)
    requires call.Renew? && HasOrder(t, first) && RenewsAs(t, call, OrderIn(t, first))
    requires OrderIn(t, first).userId == call.userId
    requires Accepts(t, call) && FreshIds(t, ids, call)
    ensures var r := RunAlone(t, ids, call, began, {});
            && r.reply == Placed(ids.order, StateApproved, StatePending, false)
            && ids.order != first && HasOrder(r.tables, first) && HasOrder(r.tables, ids.order)
            && OrderIn(r.tables, ids.order) == OrderIn(t, first).(
                 status := StateApproved, lifecycle := StatePending, key := call.key, serviceId := None)
  {
    var p := AcceptedRunsAlone(t, ids, call, began);
    CommitBuys(t, p);
    PaysRightly(t, p);
    BuysAgain(t, t + p.writes, p, first);
  }

  /** Trying a committed renewal again, at another reading of the clock, is another purchase. In
      every state after the first one's commit it succeeds if and only if its own key is unused
      and the wallet covers the price, and it then places a second order for the same item and
      amount; with the same reading it never succeeds. */
  lemma RetriedRenewal(s: State, i: nat, nano: int, ids: Ids, began: int)
    requires Reachable(s) && i < |s.log| && s.log[i].Bought? && s.log[i].call.Renew?
    requires FreshIds(s.db, ids, s.log[i].call)
    ensures HasOrder(s.db, s.log[i].ids.order)
    ensures var first := s.log[i].ids.order;
            var o := OrderIn(s.db, first);
            var retry := Again(s.log[i].call, nano);
            var r := RunAlone(s.db, ids, retry, began, {});
            && (Successful(r.reply) <==>
                  KeyAt(o.vendorId, o.userId, retry.key) !in s.db && Affords(s.db, o.userId, o.amount))
            && (retry.key == s.log[i].call.key ==> !Successful(r.reply))
            && (Successful(r.reply) ==>
                  && r.reply == Placed(ids.order, StateApproved, StatePending, false)
                  && ids.order != first && HasOrder(r.tables, first) && HasOrder(r.tables, ids.order)
                  && OrderIn(r.tables, ids.order) == o.(key := retry.key, serviceId := None))
  {
    ReachableLogged(s);
    ReachableOrders(s);
    var first := s.log[i].ids.order;
    var retry := Again(s.log[i].call, nano);
    assert EntrySound(s.db, s.log[i]) && OrderSound(s.db, first);
    AgainAccepted(s.db, s.log[i].call, nano, first);
    SucceedsIff(s.db, ids, retry, began);
    if Accepts(s.db, retry) {
      AgainPlaces(s.db, ids, retry, first, began);
    }
  }

  /** A Create refused for want of money had passed the checks of its key and item. */
  ghost predicate RefusalSound(t: Tables, a: Answer) {
    a.call.Create? && a.reply == Refused(Insufficient) ==>
      a.call.key != "" && PriceOf(t, a.call.vendorId, a.call.catalogId).Some? && ItemIn(t, a.call.catalogId).active
  }

  ghost predicate RefusalsSound(s: State) {
    forall tid :: tid in s.answers ==> RefusalSound(s.db, s.answers[tid])
  }

  lemma RefusalStays(t: Tables, u: Tables, a: Answer)
    requires Preserves(t, u, {}) && RefusalSound(t, a)
    ensures RefusalSound(u, a)
  {
  }

  lemma NewRefusal(t: Tables, ids: Ids, p: Buyer)
    requires BuyerInv(t, p) && Statement(t, ids, p) == Failed(Insufficient)
    ensures RefusalSound(t, Answer(p.call, Refused(Insufficient)))
  {
    assert p.pc.Reserved?;
  }

  lemma AdvanceRefusal(s: State, s': State, tid: int, p: Buyer, heard: bool)
    requires Core(s) && tid in s.procs && s.procs[tid] == Buying(p)
    requires AdvanceBuyer(s, tid, p, heard) == Some(s') && tid in s'.answers && tid !in s.answers
    ensures RefusalSound(s.db, s'.answers[tid])
  {
    assert ProcInv(s.db, s.procs[tid]);
    if Statement(s.db, SequenceIds(s.seqs), p) == Failed(Insufficient) {
      NewRefusal(s.db, SequenceIds(s.seqs), p);
    }
  }

  lemma NextRefusals(s: State, l: Label, s': State)
    requires Core(s) && Apart(s) && RefusalsSound(s)
    requires Next(s, l) == Some(s') && Preserves(s.db, s'.db, {})
    ensures RefusalsSound(s')
  {
    forall tid | tid in s'.answers
      ensures RefusalSound(s'.db, s'.answers[tid])
    {
      if l.Advance? {
        AdvanceSameCall(s, s', l.tid, s.procs[l.tid].buyer, l.heard);
        if tid == l.tid {
          AdvanceRefusal(s, s', tid, s.procs[tid].buyer, l.heard);
        }
      } else if s'.answers != s.answers {
        DisruptAnswers(s, l, s');
      }
      RefusalStays(s.db, s'.db, s'.answers[tid]);
    }
  }

  lemma {:induction false} RunRefusals(s: State, ls: seq<Label>, s': State)
    requires OrderInv(s) && Apart(s) && RefusalsSound(s)
    requires Run(s, ls) == Some(s')
    ensures RefusalsSound(s')
    decreases |ls|
  {
    if ls != [] {
      var mid := Next(s, ls[0]).value;
      NextOrders(s, ls[0], mid);
      NextRefusals(s, ls[0], mid);
      RunRefusals(mid, ls[1..], s');
    }
  }

  /** A refusal for want of money, under any interleaving, does not burn the key: in every state
      after it, whatever has run in between, the same Create places an order if and only if its
      key is unused and the wallet covers the price, and returns the key's order when it is used. */
  lemma RetryAfterRefusal(s: State, tid: int, ids: Ids, began: int)
    requires Reachable(s) && tid in s.answers
    requires s.answers[tid].call.Create? && s.answers[tid].reply == Refused(Insufficient)
    requires FreshIds(s.db, ids, s.answers[tid].call)
    ensures var call := s.answers[tid].call;
            var k := KeyAt(call.vendorId, call.userId, call.key);
            var r := RunAlone(s.db, ids, call, began, {});
            && HasItem(s.db, call.catalogId)
            && (r.reply == Placed(ids.order, StateApproved, StatePending, false) <==>
                  k !in s.db && Affords(s.db, call.userId, ItemIn(s.db, call.catalogId).price))
            && (k in s.db ==> r == Result(s.db, Placed(Resolve(s.db, k), StateApproved, StatePending, true)))
  {
    var ls :| Run(INITIAL, ls) == Some(s);
    InitialCore();
    RunRefusals(INITIAL, ls, s);
    ReachableOrders(s);
    var call := s.answers[tid].call;
    var k := KeyAt(call.vendorId, call.userId, call.key);
    assert RefusalSound(s.db, s.answers[tid]);
    SucceedsIff(s.db, ids, call, began);
    if Accepts(s.db, call) {
      var p := AcceptedRunsAlone(s.db, ids, call, began);
    }
    if k in s.db {
      assert KeySound(s.db, k);
      assert Run(s, []) == Some(s);
      IdempotentReplay(s, [], s, call, Resolve(s.db, k), ids, began);
    }
  }

  lemma NextEntries(s: State, l: Label, s': State)
    requires Core(s) && Apart(s) && Next(s, l) == Some(s')
    ensures s.log <= s'.log && s.answers.Keys <= s'.answers.Keys
    ensures forall i :: |s.log| <= i < |s'.log| && s'.log[i].Bought? ==> s'.log[i].tid !in s.answers
  {
    if l.Advance? {
      AdvanceLogs(s, s', l.tid, s.procs[l.tid].buyer, l.heard);
      AdvanceKeepsAnswers(s, s', l.tid, s.procs[l.tid].buyer, l.heard);
    } else {
      OthersLogWrites(s, l, s');
      OthersKeepAnswers(s, l, s');
    }
  }

  /** What is logged later is logged for calls not yet answered. */
  lemma {:induction false} RunEntries(s: State, ls: seq<Label>, s': State)
    requires Core(s) && Apart(s) && Run(s, ls) == Some(s')
    ensures s.log <= s'.log
    ensures forall i :: |s.log| <= i < |s'.log| && s'.log[i].Bought? ==> s'.log[i].tid !in s.answers
    decreases |ls|
  {
    if ls != [] {
      var mid := Next(s, ls[0]).value;
      NextKeepsCore(s, ls[0], mid);
      AnswersApart(s, ls[0], mid);
      NextEntries(s, ls[0], mid);
      RunEntries(mid, ls[1..], s');
      forall i | |s.log| <= i < |s'.log| && s'.log[i].Bought?
        ensures s'.log[i].tid !in s.answers
      {
        assert i < |mid.log| ==> s'.log[i] == mid.log[i];
      }
    }
  }

  /** The serial order respects real time: of two committed calls, one that had been answered when
      the other was yet to be submitted comes first. */
  lemma RealTimeOrder(s: State, a: int, b: int, ls: seq<Label>, s': State, i: nat, j: nat)
    requires Reachable(s) && Run(s, ls) == Some(s')
    requires a in s.answers && Unused(s, b)
    requires i < |s'.log| && s'.log[i].Bought? && s'.log[i].tid == a
    requires j < |s'.log| && s'.log[j].Bought? && s'.log[j].tid == b
    ensures i < j
  {
    ReachableOrders(s);
    InterleavingIsSerial(s);
    RunEntries(s, ls, s');
    forall k | 0 <= k < |s.log| && s.log[k].Bought?
      ensures s.log[k].tid in s.answers && s'.log[k] == s.log[k]
    {
      assert Answered(s, k);
    }
  }
}
