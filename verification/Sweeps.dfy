/** The expiry sweep: what one MarkExpired does, and when a service can come to be expired. */
module Sweeps {
  import opened Schema
  import opened Repository
  import opened Calls
  import opened Local
  import opened Engine
  import opened CoreInvariant
  import opened Effects
  import opened CoreSteps
  import opened Isolation
  import W = Workers
  import Ordering
  import Locking
  import Expiry

  /** No active service has an expiry before `at`. */
  ghost predicate NoneDue(t: Tables, at: int) {
    forall v :: HasService(t, v) && ServiceIn(t, v).status == Active && ServiceIn(t, v).expiresAt.Some? ==>
      at <= ServiceIn(t, v).expiresAt.value
  }

  /** The rows that are not the same in both. */
  function Changed(t: Tables, u: Tables): set<Addr> {
    set a | a in t && (a !in u || u[a] != t[a])
  }

  /** After a sweep no active service is overdue, a second sweep for the same or an earlier time
      changes nothing, and the returned count is the number of rows that changed, each of
      them from active to expired. */
  lemma SweepSettles(s: State, at: int, s': State, again: int)
    requires SweepExpired(s, at) == Some(s') && again <= at
    ensures NoneDue(s'.db, at)
    ensures SweepWrite(s'.db, again) == map[]
    ensures s'.db.Keys == s.db.Keys
    ensures |SweepWrite(s.db, at).Keys| == |Changed(s.db, s'.db)|
    ensures forall a :: a in Changed(s.db, s'.db) ==>
              && s.db[a].ServiceRow? && s.db[a].service.status == Active
              && s.db[a].service.expiresAt.Some? && s.db[a].service.expiresAt.value < at
              && s'.db[a] == ServiceRow(s.db[a].service.(status := Expired))
  {
    forall a
      ensures a in SweepWrite(s.db, at).Keys <==> a in Changed(s.db, s'.db)
    {
    }
    assert SweepWrite(s.db, at).Keys == Changed(s.db, s'.db);
    forall v | HasService(s'.db, v) && ServiceIn(s'.db, v).status == Active && ServiceIn(s'.db, v).expiresAt.Some?
      ensures at <= ServiceIn(s'.db, v).expiresAt.value
    {
      assert ServiceAt(v) in s.db && ServiceAt(v) !in SweepWrite(s.db, at);
    }
    forall a: Addr | a in s'.db && a.ServiceAt?
      ensures !Due(s'.db[a], again)
    {
      assert HasService(s'.db, a.id) || !s'.db[a].ServiceRow?;
    }
  }

  function StatusOf(t: Tables, v: int): ServiceStatus
    requires HasService(t, v)
  {
    ServiceIn(t, v).status
  }

  /** Every service of `t` is in `u` with the same status. */
  ghost predicate SameStatuses(t: Tables, u: Tables) {
    forall v :: HasService(t, v) ==> HasService(u, v) && StatusOf(u, v) == StatusOf(t, v)
  }

  lemma BuyingKeepsStatuses(t: Tables, u: Tables, p: Buyer)
    requires u == t || Buys(t, u, p) || Deposits(t, u, p)
    ensures SameStatuses(t, u)
  {
  }

  lemma WorkKeepsStatuses(s: State, s': State, tid: int, w: W.Worker, answer: Option<int>, heard: bool)
    requires Core(s) && tid in s.procs && s.procs[tid] == Working(w)
    requires AdvanceWorker(s, tid, w, answer, heard) == Some(s')
    ensures SameStatuses(s.db, s'.db)
  {
    assert WorkerInv(s.db, w);
    var out := W.WorkStatement(s.db, s.seqs.service, answer, w);
    match out
    case Onward(_) =>
    case Durable(_) => assert forall v :: ServiceAt(v) in s.db ==> ServiceAt(v) !in w.writes;
    case Finished(writes) => assert forall v :: ServiceAt(v) !in writes;
  }

  lemma ClaimKeepsStatuses(s: State, s': State, tid: int)
    requires ClaimNext(s, tid) == Some(s')
    ensures SameStatuses(s.db, s'.db)
  {
  }

  lemma RegisterKeepsStatuses(s: State, s': State, tid: int, email: string)
    requires RegisterUser(s, tid, email) == Some(s')
    ensures SameStatuses(s.db, s'.db)
  {
  }

  lemma EnsureKeepsStatuses(s: State, s': State, tid: int)
    requires EnsureForUser(s, tid) == Some(s')
    ensures SameStatuses(s.db, s'.db)
  {
  }

  lemma ProvisionKeepsStatuses(s: State, s': State, tid: int, row: Service)
    requires Core(s) && ProvisionService(s, tid, row) == Some(s')
    ensures SameStatuses(s.db, s'.db)
  {
  }

  lemma CatalogKeepsStatuses(s: State, item: Item, panel: Panel)
    ensures InsertItem(s, item).Some? ==> SameStatuses(s.db, InsertItem(s, item).value.db)
    ensures SameStatuses(s.db, InsertPanel(s, panel).db)
  {
  }

  lemma AdvanceKeepsStatuses(s: State, s': State, tid: int, p: Buyer, heard: bool)
    requires Core(s) && tid in s.procs && s.procs[tid] == Buying(p)
    requires AdvanceBuyer(s, tid, p, heard) == Some(s')
    ensures SameStatuses(s.db, s'.db)
  {
    AdvanceEffect(s, s', tid, p, heard);
    BuyingKeepsStatuses(s.db, s'.db, p);
  }

  lemma OthersKeepStatuses(s: State, l: Label, s': State)
    requires Core(s)
    requires Next(s, l) == Some(s')
    requires !l.PanelReply? && !l.SetStatus? && !l.Sweep? && !l.Advance? && !l.Work?
    ensures SameStatuses(s.db, s'.db)
  {
    match l
    case Claim(tid) => ClaimKeepsStatuses(s, s', tid);
    case Register(tid, email) => RegisterKeepsStatuses(s, s', tid, email);
    case EnsureWallet(tid) => EnsureKeepsStatuses(s, s', tid);
    case Provision(tid, v, u, order, protocol, traffic, days) =>
      ProvisionKeepsStatuses(s, s', tid,
                             Service(v, u, order, protocol, Provisioning, Some(s.clock + days * DAY), traffic, days));
    case AddItem(item) => CatalogKeepsStatuses(s, item, Panel(0, false));
    case AddPanel(panel) => CatalogKeepsStatuses(s, Item(0, "", 0, 0, 0, false), panel);
    case _ =>
  }

  /** Only a panel's reply, a Suspend or Resume, and a sweep change the status of a service: a
      renewal, in particular, never does. */
  lemma WhoChangesStatus(s: State, l: Label, s': State)
    requires Core(s)
    requires Next(s, l) == Some(s')
    requires !l.PanelReply? && !l.SetStatus? && !l.Sweep?
    ensures SameStatuses(s.db, s'.db)
  {
    if l.Advance? {
      AdvanceKeepsStatuses(s, s', l.tid, s.procs[l.tid].buyer, l.heard);
    } else if l.Work? {
      WorkKeepsStatuses(s, s', l.tid, s.procs[l.tid].worker, l.answer, l.heard);
    } else {
      OthersKeepStatuses(s, l, s');
    }
  }

  /** The step that inserts a service by hand: possible exactly when the vendor has an active panel and
      an order that is named exists; it changes nothing else in the tables. */
  lemma ProvisionIff(s: State, tid: int, v: int, u: int, order: Option<int>, protocol: string, gb: int, days: int)
    ensures var next := Next(s, Provision(tid, v, u, order, protocol, gb, days));
            && (next.Some? <==>
                  && tid !in s.procs && tid !in s.answers
                  && (exists p :: HasPanel(s.db, p) && PanelIn(s.db, p).vendorId == v && PanelIn(s.db, p).active)
                  && (order.Some? ==> HasOrder(s.db, order.value)))
            && (next.Some? ==>
                  var row := Service(v, u, order, protocol, Provisioning, Some(s.clock + days * 86_400), gb, days);
                  next.value.db == s.db[ServiceAt(s.seqs.service) := ServiceRow(row)])
  {
    forall p
      ensures p in ActivePanels(s.db, v) <==>
              HasPanel(s.db, p) && PanelIn(s.db, p).vendorId == v && PanelIn(s.db, p).active
    {
    }
    if ActivePanels(s.db, v) != {} {
      var p := Least(ActivePanels(s.db, v));
      assert HasPanel(s.db, p) && PanelIn(s.db, p).vendorId == v;
    }
  }

  /** The step that reads a service for a Suspend or Resume: possible exactly for a service of the
      caller's own vendor whose status allows it. */
  lemma ReadServiceIff(s: State, tid: int, v: int, sid: int, target: ServiceStatus)
    ensures Next(s, ReadService(tid, v, sid, target)).Some? <==>
            && tid !in s.procs && tid !in s.answers
            && HasService(s.db, sid) && ServiceIn(s.db, sid).vendorId == v
            && ((target == Suspended && ServiceIn(s.db, sid).status != Suspended) ||
                (target == Active && ServiceIn(s.db, sid).status == Suspended))
    ensures Next(s, ReadService(tid, v, sid, target)).Some? ==>
              Next(s, ReadService(tid, v, sid, target)).value ==
              s.(procs := s.procs[tid := Toggling(v, sid, target)])
  {
  }

  /** The service a process is about to update is one of its own vendor. */
  ghost predicate Owns(t: Tables, p: Proc) {
    p.AwaitingPanel? || p.Toggling? ==> HasService(t, p.svc) && ServiceIn(t, p.svc).vendorId == p.vendor
  }

  ghost predicate OwnsAll(s: State) {
    forall tid :: tid in s.procs ==> Owns(s.db, s.procs[tid])
  }

  lemma OwnsStays(t: Tables, u: Tables, p: Proc)
    requires Preserves(t, u, {}) && Owns(t, p)
    ensures Owns(u, p)
  {
  }

  /** A step adds at most one process that owns a service. */
  lemma NewOwner(s: State, l: Label, s': State, tid: int)
    requires Next(s, l) == Some(s') && tid in s'.procs
    ensures (tid in s.procs && s'.procs[tid] == s.procs[tid]) || Owns(s'.db, s'.procs[tid])
  {
  }

  lemma NextOwns(s: State, l: Label, s': State)
    requires OwnsAll(s) && Next(s, l) == Some(s') && Preserves(s.db, s'.db, {})
    ensures OwnsAll(s')
  {
    forall tid | tid in s'.procs
      ensures Owns(s'.db, s'.procs[tid])
    {
      NewOwner(s, l, s', tid);
      if tid in s.procs && s'.procs[tid] == s.procs[tid] {
        OwnsStays(s.db, s'.db, s.procs[tid]);
      }
    }
  }

  lemma {:induction false} RunOwns(s: State, ls: seq<Label>, s': State)
    requires Core(s) && OwnsAll(s) && Run(s, ls) == Some(s')
    ensures OwnsAll(s')
    decreases |ls|
  {
    if ls != [] {
      var mid := Next(s, ls[0]).value;
      NextKeepsCore(s, ls[0], mid);
      Ordering.PreservesLess(s.db, mid.db, Locked(s.procs, Actor(ls[0])));
      NextOwns(s, ls[0], mid);
      RunOwns(mid, ls[1..], s');
    }
  }

  /** In every reachable state, a panel's reply or the update of a Suspend or Resume sets the status
      of a service of its own process's vendor, to what was answered or asked for, and changes
      nothing else in the tables. */
  lemma StatusSetInVendor(s: State, l: Label, s': State)
    requires Reachable(s) && Next(s, l) == Some(s') && (l.PanelReply? || l.SetStatus?)
    ensures var sid := s.procs[l.tid].svc;
            && HasService(s.db, sid) && ServiceIn(s.db, sid).vendorId == s.procs[l.tid].vendor
            && var status := if l.SetStatus? then s.procs[l.tid].target else if l.ok then Active else ProvisionFailed;
               s'.db == s.db[ServiceAt(sid) := ServiceRow(ServiceIn(s.db, sid).(status := status))]
  {
    var ls :| Run(INITIAL, ls) == Some(s);
    InitialCore();
    RunOwns(INITIAL, ls, s);
    assert Owns(s.db, s.procs[l.tid]);
  }

  /** A Suspend or Resume under way sets one of its two statuses. */
  ghost predicate Toggles(s: State) {
    forall tid :: tid in s.procs && s.procs[tid].Toggling? ==>
      s.procs[tid].target == Suspended || s.procs[tid].target == Active
  }

  lemma NextToggles(s: State, l: Label, s': State)
    requires Toggles(s)
    requires Next(s, l) == Some(s')
    ensures Toggles(s')
  {
  }

  lemma {:induction false} RunToggles(s: State, ls: seq<Label>, s': State)
    requires Toggles(s)
    requires Run(s, ls) == Some(s')
    ensures Toggles(s')
    decreases |ls|
  {
    if ls != [] {
      NextToggles(s, ls[0], Next(s, ls[0]).value);
      RunToggles(Next(s, ls[0]).value, ls[1..], s');
    }
  }

  lemma StatusSets(s: State, s': State, tid: int, v: int, sid: int, status: ServiceStatus, x: int)
    requires UpdateStatus(s, tid, v, sid, status) == Some(s')
    requires HasService(s.db, x)
    ensures HasService(s'.db, x)
    ensures StatusOf(s'.db, x) == StatusOf(s.db, x) || (x == sid && StatusOf(s'.db, x) == status)
  {
  }

  lemma SweepSets(s: State, s': State, at: int, x: int)
    requires SweepExpired(s, at) == Some(s')
    requires HasService(s.db, x)
    ensures HasService(s'.db, x)
    ensures at <= s.clock
    ensures StatusOf(s'.db, x) == StatusOf(s.db, x) || Due(s.db[ServiceAt(x)], at)
  {
  }

  lemma TurnsExpired(s: State, l: Label, s': State, sid: int)
    requires Core(s) && Toggles(s)
    requires Next(s, l) == Some(s')
    requires HasService(s.db, sid) && HasService(s'.db, sid)
    requires StatusOf(s.db, sid) != Expired && StatusOf(s'.db, sid) == Expired
    ensures l.Sweep? && l.at <= s.clock
    ensures StatusOf(s.db, sid) == Active
    ensures ServiceIn(s.db, sid).expiresAt.Some? && ServiceIn(s.db, sid).expiresAt.value < l.at
  {
    match l
    case PanelReply(tid, ok) =>
      StatusSets(s, s', tid, s.procs[tid].vendor, s.procs[tid].svc, if ok then Active else ProvisionFailed, sid);
    case SetStatus(tid) =>
      StatusSets(s, s', tid, s.procs[tid].vendor, s.procs[tid].svc, s.procs[tid].target, sid);
    case Sweep(at) => SweepSets(s, s', at, sid);
    case _ => WhoChangesStatus(s, l, s');
  }

  /** A service turns expired only in a sweep, and only strictly after the expiry its renewals
      have built up: after the first expiry plus every period bought, and after the start of
      each renewal plus the periods bought from it on. */
  lemma ExpiresOnlyAfterRenewals(s: State, ls: seq<Label>, mid: State, l: Label, s': State, sid: int)
    requires Reachable(s) && Run(s, ls) == Some(mid) && Next(mid, l) == Some(s')
    requires HasService(s.db, sid) && HasService(mid.db, sid) && HasService(s'.db, sid)
    requires StatusOf(mid.db, sid) != Expired && StatusOf(s'.db, sid) == Expired
    ensures l.Sweep? && l.at <= mid.clock
    ensures s.log <= mid.log
    ensures var times := Expiry.RenewTimes(Expiry.Added(s, mid), sid);
            var n := |times|; var first := ServiceIn(s.db, sid).expiresAt; var d := ServiceIn(s.db, sid).days * 86_400;
            && (first.Some? ==> first.value + n * d < l.at)
            && (forall i :: 0 <= i < n ==> times[i] + (n - i) * d < l.at)
  {
    var init :| Run(INITIAL, init) == Some(s);
    Locking.ReachableCore(s);
    Locking.RunCore(s, ls, mid);
    RunToggles(INITIAL, init, s);
    RunToggles(s, ls, mid);
    TurnsExpired(mid, l, s', sid);
    Expiry.ExpiryOverRuns(s, ls, mid, sid);
  }
}
