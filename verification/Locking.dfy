/** Row locks: a locked row changes only by its holder's commit, no cycle of waiting ever
    forms, and some process can always step. */
module Locking {
  import opened Schema
  import opened Calls
  import opened Local
  import opened Engine
  import opened CoreInvariant
  import opened CoreSteps
  import opened Effects
  import W = Workers
  import Ordering

  lemma {:induction false} RunCore(s: State, ls: seq<Label>, s': State)
    requires Core(s)
    requires Run(s, ls) == Some(s')
    ensures Core(s')
    decreases |ls|
  {
    if ls != [] {
      var mid := Next(s, ls[0]).value;
      NextKeepsCore(s, ls[0], mid);
      RunCore(mid, ls[1..], s');
    }
  }

  lemma ReachableCore(s: State)
    requires Reachable(s)
    ensures Core(s)
  {
    var ls :| Run(INITIAL, ls) == Some(s);
    InitialCore();
    RunCore(INITIAL, ls, s);
  }

  /** The row is the same, present or absent, in both. */
  ghost predicate Same(t: Tables, u: Tables, a: Addr) {
    (a in t <==> a in u) && (a in t ==> t[a] == u[a])
  }

  lemma AdvanceLeaves(s: State, s': State, actor: int, p: Buyer, heard: bool, tid: int)
    requires AdvanceBuyer(s, actor, p, heard) == Some(s') && tid in s.procs && tid != actor
    ensures tid in s'.procs && s'.procs[tid] == s.procs[tid]
  {
  }

  lemma WorkLeaves(s: State, s': State, actor: int, w: W.Worker, answer: Option<int>, heard: bool, tid: int)
    requires AdvanceWorker(s, actor, w, answer, heard) == Some(s') && tid in s.procs && tid != actor
    ensures tid in s'.procs && s'.procs[tid] == s.procs[tid]
  {
  }

  lemma OthersStep(s: State, l: Label, s': State, tid: int)
    requires tid in s.procs && tid !in Actor(l)
    requires Next(s, l) == Some(s')
    ensures tid in s'.procs && s'.procs[tid] == s.procs[tid]
  {
    if l.Advance? {
      AdvanceLeaves(s, s', l.tid, s.procs[l.tid].buyer, l.heard, tid);
    } else if l.Work? {
      WorkLeaves(s, s', l.tid, s.procs[l.tid].worker, l.answer, l.heard, tid);
    }
  }

  lemma LockedRowStays(s: State, l: Label, s': State, tid: int, a: Addr)
    requires Core(s) && tid in s.procs && tid !in Actor(l) && a in LocksOf(s.procs[tid])
    requires Next(s, l) == Some(s')
    ensures Same(s.db, s'.db, a)
  {
    NextKeepsCore(s, l, s');
    assert a in Locked(s.procs, Actor(l));
  }

  /** As long as a process does not step itself, every row it has locked stays as it is,
      whatever the others do. */
  lemma {:induction false} LockedRowsStay(s: State, ls: seq<Label>, s': State, tid: int, a: Addr)
    requires Core(s) && tid in s.procs && a in LocksOf(s.procs[tid])
    requires forall i :: 0 <= i < |ls| ==> tid !in Actor(ls[i])
    requires Run(s, ls) == Some(s')
    ensures tid in s'.procs && s'.procs[tid] == s.procs[tid]
    ensures Same(s.db, s'.db, a)
    decreases |ls|
  {
    if ls != [] {
      var mid := Next(s, ls[0]).value;
      NextKeepsCore(s, ls[0], mid);
      OthersStep(s, ls[0], mid, tid);
      LockedRowStays(s, ls[0], mid, tid, a);
      LockedRowsStay(mid, ls[1..], s', tid, a);
    }
  }

  /** No double spend: from the locked read of DeductTx until the transaction ends, no step of
      any other process changes the balance, so the check that it covers the price stays true. */
  lemma BalanceHeld(s: State, ls: seq<Label>, s': State, tid: int)
    requires Reachable(s) && tid in s.procs && s.procs[tid].Buying?
    requires Rank(s.procs[tid].buyer.pc) >= Rank(WalletLocked)
    requires forall i :: 0 <= i < |ls| ==> tid !in Actor(ls[i])
    requires Run(s, ls) == Some(s')
    ensures var p := s.procs[tid].buyer;
            && tid in s'.procs && s'.procs[tid] == s.procs[tid]
            && HasWallet(s.db, p.wallet) && HasWallet(s'.db, p.wallet)
            && WalletIn(s'.db, p.wallet) == WalletIn(s.db, p.wallet)
            && (!p.call.TopUp? ==> p.price <= WalletIn(s'.db, p.wallet).balance)
  {
    ReachableCore(s);
    var p := s.procs[tid].buyer;
    assert BuyerInv(s.db, p);
    LockedRowsStay(s, ls, s', tid, WalletAt(p.wallet));
  }

  /** The row or key the next statement of a process needs to itself. */
  function Request(s: State, tid: int): Option<Addr>
    requires tid in s.procs
  {
    match s.procs[tid]
    case Buying(p) => Requests(s.db, p)
    case Working(w) =>
      if w.stage.Persisted? || w.stage.Counted? then Some(JobAt(w.job)) else W.WorkRequests(s.db, w)
    case Registering(_) => None
    case AwaitingPanel(_, svc) => Some(ServiceAt(svc))
    case Toggling(_, svc, _) => Some(ServiceAt(svc))
  }

  ghost predicate WaitsFor(s: State, a: int, b: int) {
    a in s.procs && b in s.procs && a != b && Request(s, a).Some? && Request(s, a).value in LocksOf(s.procs[b])
  }

  /** The order in which locks are asked for. */
  function LockRank(a: Addr): (r: nat)
    ensures r <= 5
  {
    match a
    case ServiceAt(_) => 1
    case KeyAt(_, _, _) => 2
    case WalletAt(_) => 3
    case OrderAt(_) => 4
    case _ => 5
  }

  lemma BuyerAscends(t: Tables, p: Buyer, held: Addr)
    requires OnPath(p) && p.locks == LocksAt(p) && Requests(t, p).Some? && held in p.locks
    ensures LockRank(held) < LockRank(Requests(t, p).value)
  {
  }

  lemma WorkerAscends(t: Tables, w: W.Worker, held: Addr)
    requires w.locks == WorkLocks(w) && held in w.locks
    ensures !w.stage.Persisted? && !w.stage.Counted?
    ensures W.WorkRequests(t, w).Some? ==> LockRank(held) < LockRank(W.WorkRequests(t, w).value)
  {
  }

  /** Every lock asked for ranks above every lock held. */
  lemma Ascending(s: State, tid: int, held: Addr)
    requires Core(s) && tid in s.procs && Request(s, tid).Some? && held in LocksOf(s.procs[tid])
    ensures LockRank(held) < LockRank(Request(s, tid).value)
  {
    assert ProcInv(s.db, s.procs[tid]);
    match s.procs[tid]
    case Buying(p) => BuyerAscends(s.db, p, held);
    case Working(w) => WorkerAscends(s.db, w, held);
    case _ =>
  }

  /** A path in the wait-for graph. */
  ghost predicate WaitPath(s: State, path: seq<int>) {
    |path| > 0 && (forall i :: 0 <= i < |path| ==> path[i] in s.procs) &&
    (forall i :: 0 <= i < |path| - 1 ==> WaitsFor(s, path[i], path[i + 1]))
  }

  function RequestRank(s: State, tid: int): (r: nat)
    requires tid in s.procs
    ensures r <= 6
  {
    if Request(s, tid).Some? then LockRank(Request(s, tid).value) else 6
  }

  lemma WaitRises(s: State, a: int, b: int)
    requires Core(s) && WaitsFor(s, a, b)
    ensures RequestRank(s, a) < RequestRank(s, b)
  {
    if Request(s, b).Some? {
      Ascending(s, b, Request(s, a).value);
    }
  }

  lemma {:induction false} RankRises(s: State, path: seq<int>, n: nat)
    requires Core(s) && WaitPath(s, path) && n < |path|
    ensures RequestRank(s, path[0]) + n <= RequestRank(s, path[n])
    decreases n
  {
    if n > 0 {
      RankRises(s, path, n - 1);
      assert WaitsFor(s, path[n - 1], path[n - 1 + 1]);
      WaitRises(s, path[n - 1], path[n]);
    }
  }

  /** The wait-for graph of every reachable state is acyclic, and no path in it is longer than
      the lock ranks allow. */
  lemma NoWaitCycle(s: State, path: seq<int>)
    requires Reachable(s) && WaitPath(s, path) && |path| > 1
    ensures path[0] != path[|path| - 1]
    ensures |path| <= 6
  {
    ReachableCore(s);
    RankRises(s, path, |path| - 1);
  }

  /** The step of a process that needs nothing from outside. */
  function OwnStep(s: State, tid: int): Label
    requires tid in s.procs
  {
    match s.procs[tid]
    case Buying(_) => Advance(tid, true)
    case Working(_) => Work(tid, None, true)
    case Registering(_) => EnsureWallet(tid)
    case AwaitingPanel(_, _) => PanelReply(tid, true)
    case Toggling(_, _, _) => SetStatus(tid)
  }

  lemma FreeSteps(s: State, tid: int)
    requires tid in s.procs
    requires Request(s, tid).Some? ==> Request(s, tid).value !in Locked(s.procs, {tid})
    ensures Next(s, OwnStep(s, tid)).Some?
  {
  }

  /** The process that another waits for. */
  lemma Holder(s: State, tid: int) returns (b: int)
    requires Core(s) && tid in s.procs
    requires Request(s, tid).Some? && Request(s, tid).value in Locked(s.procs, {tid})
    ensures b in s.procs && RequestRank(s, tid) < RequestRank(s, b)
  {
    b :| b in s.procs && b != tid && Request(s, tid).value in LocksOf(s.procs[b]);
    WaitRises(s, tid, b);
  }

  /** Following the waits from any process leads to one that can step. */
  lemma {:induction false} Unblocked(s: State, tid: int) returns (free: int)
    requires Core(s) && tid in s.procs
    ensures free in s.procs && Next(s, OwnStep(s, free)).Some?
    decreases 6 - RequestRank(s, tid)
  {
    if Request(s, tid).Some? && Request(s, tid).value in Locked(s.procs, {tid}) {
      var b := Holder(s, tid);
      free := Unblocked(s, b);
    } else {
      FreeSteps(s, tid);
      free := tid;
    }
  }

  /** Deadlock freedom: while some process is under way, one of them can take its next step. */
  lemma SomeoneCanStep(s: State, tid: int)
    requires Reachable(s) && tid in s.procs
    ensures exists free :: free in s.procs && Next(s, OwnStep(s, free)).Some?
  {
    ReachableCore(s);
    var free := Unblocked(s, tid);
  }

  /** With no negative top-up under way, no balance is negative. */
  ghost predicate Solvent(s: State) {
    && (forall w :: HasWallet(s.db, w) ==> WalletIn(s.db, w).balance >= 0)
    && (forall tid :: tid in s.procs && s.procs[tid].Buying? && s.procs[tid].buyer.call.TopUp? ==>
          s.procs[tid].buyer.call.amount >= 0)
  }

  predicate NoNegativeTopUp(l: Label) {
    l.Submit? && l.call.TopUp? ==> l.call.amount >= 0
  }

  lemma OnlyStartsTopUps(s: State, l: Label, s': State)
    requires Solvent(s) && NoNegativeTopUp(l)
    requires Next(s, l) == Some(s') && !l.Advance?
    ensures forall tid :: tid in s'.procs && s'.procs[tid].Buying? && s'.procs[tid].buyer.call.TopUp? ==>
              s'.procs[tid].buyer.call.amount >= 0
  {
  }

  lemma NextSolvent(s: State, l: Label, s': State)
    requires Core(s) && Solvent(s) && NoNegativeTopUp(l)
    requires Next(s, l) == Some(s')
    ensures Solvent(s')
  {
    if l.Advance? {
      var p := s.procs[l.tid].buyer;
      AdvanceEffect(s, s', l.tid, p, l.heard);
      Ordering.ContinuesCall(s.db, SequenceIds(s.seqs), p);
      AdvanceSolvent(s.db, s'.db, p);
    } else {
      OnlyStartsTopUps(s, l, s');
      if !l.EnsureWallet? {
        QuietStep(s, l, s');
        QuietRows(s.db, s'.db);
      } else {
        assert forall w :: HasWallet(s'.db, w) ==> w == s.seqs.wallet || HasWallet(s.db, w);
      }
    }
  }

  lemma AdvanceSolvent(t: Tables, u: Tables, p: Buyer)
    requires forall w :: HasWallet(t, w) ==> WalletIn(t, w).balance >= 0
    requires p.call.TopUp? ==> p.call.amount >= 0
    requires u == t || Buys(t, u, p) || Deposits(t, u, p)
    ensures forall w :: HasWallet(u, w) ==> WalletIn(u, w).balance >= 0
  {
    forall w | HasWallet(u, w)
      ensures WalletIn(u, w).balance >= 0
    {
      if w != p.wallet {
        assert HasWallet(t, w) && WalletIn(t, w) == WalletIn(u, w);
      }
    }
  }

  lemma {:induction false} RunSolvent(s: State, ls: seq<Label>, s': State)
    requires Core(s) && Solvent(s)
    requires forall i :: 0 <= i < |ls| ==> NoNegativeTopUp(ls[i])
    requires Run(s, ls) == Some(s')
    ensures Solvent(s')
    decreases |ls|
  {
    if ls != [] {
      var mid := Next(s, ls[0]).value;
      NextKeepsCore(s, ls[0], mid);
      NextSolvent(s, ls[0], mid);
      RunSolvent(mid, ls[1..], s');
    }
  }

  /** If no top-up is negative, every committed balance is non-negative, over all
      interleavings and whatever the prices. */
  lemma BalancesNonNegative(ls: seq<Label>, s: State, w: int)
    requires forall i :: 0 <= i < |ls| ==> NoNegativeTopUp(ls[i])
    requires Run(INITIAL, ls) == Some(s) && HasWallet(s.db, w)
    ensures WalletIn(s.db, w).balance >= 0
  {
    InitialCore();
    RunSolvent(INITIAL, ls, s);
  }
}
