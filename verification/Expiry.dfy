/** How renewals build up a service's expiry over runs, and what the expiry sweep does. */
module Expiry {
  import opened Schema
  import opened Repository
  import opened Calls
  import opened Local
  import opened Engine
  import opened CoreInvariant
  import opened CoreSteps
  import opened Effects
  import W = Workers
  import Serializable
  import Locking

  /** The expiry after renewals in transactions that began at `times`, in commit order. */
  function Extend(expiry: Option<int>, days: int, times: seq<int>): Option<int> {
    if times == [] then expiry
    else Some(ExtendedExpiry(Extend(expiry, days, times[..|times| - 1]), days, times[|times| - 1]))
  }

  /** `v` is the greatest of the first expiry plus all the days bought, and of each renewal's
      time plus the days bought from it on. */
  ghost predicate Latest(expiry: Option<int>, days: int, times: seq<int>, v: int) {
    var n := |times|;
    && (expiry.Some? ==> expiry.value + n * (days * 86_400) <= v)
    && (forall i :: 0 <= i < n ==> times[i] + (n - i) * (days * 86_400) <= v)
    && ((expiry.Some? && v == expiry.value + n * (days * 86_400)) ||
        exists i :: 0 <= i < n && v == times[i] + (n - i) * (days * 86_400))
  }

  lemma LatestGrows(expiry: Option<int>, days: int, times: seq<int>, v: int, t: int)
    requires Latest(expiry, days, times, v)
    ensures Latest(expiry, days, times + [t], ExtendedExpiry(Some(v), days, t))
  {
    var n := |times|;
    var d := days * 86_400;
    var ts := times + [t];
    var v' := ExtendedExpiry(Some(v), days, t);
    assert v' == (if v < t then t else v) + d;
    assert (n + 1) * d == n * d + d;
    forall i | 0 <= i < n + 1
      ensures ts[i] + (n + 1 - i) * d <= v'
    {
      if i < n {
        assert ts[i] == times[i] && times[i] + (n - i) * d <= v;
        assert (n + 1 - i) * d == (n - i) * d + d;
      } else {
        assert ts[i] == t && (n + 1 - i) * d == d;
      }
    }
    if v < t {
      assert ts[n] == t && v' == ts[n] + (n + 1 - n) * d;
    } else if !(expiry.Some? && v == expiry.value + n * d) {
      var i :| 0 <= i < n && v == times[i] + (n - i) * d;
      assert (n + 1 - i) * d == (n - i) * d + d;
      assert ts[i] == times[i] && v' == ts[i] + (n + 1 - i) * d;
    }
  }

  /** Closed form of any number of renewals, for any expiry, duration and times. */
  lemma {:induction false} RenewalClosedForm(expiry: Option<int>, days: int, times: seq<int>)
    requires times != []
    ensures Extend(expiry, days, times).Some?
    ensures Latest(expiry, days, times, Extend(expiry, days, times).value)
    decreases |times|
  {
    var n := |times|;
    var init, t := times[..n - 1], times[n - 1];
    assert times == init + [t];
    if init == [] {
      var d := days * 86_400;
      assert times[0] == t && 1 * d == d;
      assert expiry.None? || expiry.value < t ==> Extend(expiry, days, times).value == times[0] + (1 - 0) * d;
    } else {
      RenewalClosedForm(expiry, days, init);
      LatestGrows(expiry, days, init, Extend(expiry, days, init).value, t);
    }
  }

  /** The start times of the transactions in `log` that renewed the service. */
  function RenewTimes(log: seq<Entry>, sid: int): seq<int> {
    if log == [] then []
    else
      var e := log[|log| - 1];
      RenewTimes(log[..|log| - 1], sid) +
      (if e.Bought? && e.call.Renew? && e.call.serviceId == sid then [e.began] else [])
  }

  lemma {:induction false} RenewTimesAppend(a: seq<Entry>, b: seq<Entry>, sid: int)
    ensures RenewTimes(a + b, sid) == RenewTimes(a, sid) + RenewTimes(b, sid)
    decreases |b|
  {
    if b == [] {
      assert a + b == a;
    } else {
      var n := |b| - 1;
      assert (a + b)[..|a + b| - 1] == a + b[..n];
      RenewTimesAppend(a, b[..n], sid);
    }
  }

  lemma {:induction false} ExtendAppend(expiry: Option<int>, days: int, a: seq<int>, b: seq<int>)
    ensures Extend(expiry, days, a + b) == Extend(Extend(expiry, days, a), days, b)
    decreases |b|
  {
    if b == [] {
      assert a + b == a;
    } else {
      var n := |b| - 1;
      assert (a + b)[..|a + b| - 1] == a + b[..n];
      ExtendAppend(expiry, days, a, b[..n]);
    }
  }

  /** Every service of `t` is in `u` with the same expiry. */
  ghost predicate SameExpiries(t: Tables, u: Tables) {
    forall v :: HasService(t, v) ==> HasService(u, v) && ServiceIn(u, v).expiresAt == ServiceIn(t, v).expiresAt
  }

  lemma WorkSameExpiries(s: State, s': State, tid: int, w: W.Worker, answer: Option<int>, heard: bool)
    requires Core(s) && tid in s.procs && s.procs[tid] == Working(w)
    requires AdvanceWorker(s, tid, w, answer, heard) == Some(s')
    ensures SameExpiries(s.db, s'.db)
  {
    assert WorkerInv(s.db, w);
    var out := W.WorkStatement(s.db, s.seqs.service, answer, w);
    match out
    case Onward(_) =>
    case Durable(_) => assert forall v :: ServiceAt(v) in s.db ==> ServiceAt(v) !in w.writes;
    case Finished(writes) => assert forall v :: ServiceAt(v) !in writes;
  }

  lemma SweepSameExpiries(s: State, s': State, at: int)
    requires SweepExpired(s, at) == Some(s')
    ensures SameExpiries(s.db, s'.db)
  {
  }

  lemma StatusSameExpiries(s: State, s': State, tid: int, v: int, sid: int, status: ServiceStatus)
    requires UpdateStatus(s, tid, v, sid, status) == Some(s')
    ensures SameExpiries(s.db, s'.db)
  {
  }

  lemma ProvisionSameExpiries(s: State, s': State, tid: int, row: Service)
    requires Core(s) && ProvisionService(s, tid, row) == Some(s')
    ensures SameExpiries(s.db, s'.db)
  {
  }

  /** The steps that write a service row, but for a call's commit. */
  predicate WritesService(l: Label) {
    l.Work? || l.Sweep? || l.Provision? || l.PanelReply? || l.SetStatus?
  }

  lemma ServiceStepSameExpiries(s: State, l: Label, s': State)
    requires Core(s)
    requires Next(s, l) == Some(s') && WritesService(l)
    ensures SameExpiries(s.db, s'.db)
  {
    match l
    case Work(tid, answer, heard) => WorkSameExpiries(s, s', tid, s.procs[tid].worker, answer, heard);
    case Sweep(at) => SweepSameExpiries(s, s', at);
    case Provision(tid, v, u, order, protocol, traffic, days) =>
      ProvisionSameExpiries(s, s', tid,
                            Service(v, u, order, protocol, Provisioning, Some(s.clock + days * DAY), traffic, days));
    case PanelReply(tid, ok) =>
      StatusSameExpiries(s, s', tid, s.procs[tid].vendor, s.procs[tid].svc, if ok then Active else ProvisionFailed);
    case SetStatus(tid) => StatusSameExpiries(s, s', tid, s.procs[tid].vendor, s.procs[tid].svc, s.procs[tid].target);
  }

  lemma OtherStepSameExpiries(s: State, l: Label, s': State)
    requires Next(s, l) == Some(s') && !l.Advance? && !WritesService(l)
    ensures SameExpiries(s.db, s'.db)
  {
  }

  lemma OthersSameExpiries(s: State, l: Label, s': State)
    requires Core(s)
    requires Next(s, l) == Some(s') && !l.Advance?
    ensures SameExpiries(s.db, s'.db)
  {
    if WritesService(l) {
      ServiceStepSameExpiries(s, l, s');
    } else {
      OtherStepSameExpiries(s, l, s');
    }
  }

  /** Entries of the log that one step adds. */
  function Added(s: State, s': State): seq<Entry>
    requires |s.log| <= |s'.log|
  {
    s'.log[|s.log|..]
  }

  lemma ReadyFacts(t: Tables, p: Buyer)
    requires BuyerInv(t, p)
    ensures OnPath(p)
    ensures Serializable.Ready(p) && p.call.Renew? ==> RenewFacts(t, p) && p.pc.Extended?
  {
  }

  lemma OneEntry(e: Entry, sid: int)
    ensures RenewTimes([e], sid) == if e.Bought? && e.call.Renew? && e.call.serviceId == sid then [e.began] else []
  {
  }

  lemma AdvanceExpiry(s: State, s': State, tid: int, p: Buyer, sid: int)
    requires s'.log == if Serializable.Ready(p) then s.log + [Bought(tid, p.call, p.ids, p.began)] else s.log
    requires if Serializable.Ready(p) then Buys(s.db, s'.db, p) || Deposits(s.db, s'.db, p) else s'.db == s.db
    requires Serializable.Ready(p) && p.call.Renew? ==> RenewFacts(s.db, p) && p.pc.Extended?
    requires HasService(s.db, sid)
    ensures s.log <= s'.log
    ensures HasService(s'.db, sid)
    ensures ServiceIn(s'.db, sid).expiresAt ==
            Extend(ServiceIn(s.db, sid).expiresAt, ServiceIn(s.db, sid).days, RenewTimes(Added(s, s'), sid))
  {
    if Serializable.Ready(p) {
      var e := Bought(tid, p.call, p.ids, p.began);
      assert Added(s, s') == [e];
      OneEntry(e, sid);
      RenewedRow(s.db, s'.db, p, sid);
    } else {
      assert Added(s, s') == [];
    }
  }

  /** What a commit does to one service's expiry. */
  lemma RenewedRow(t: Tables, u: Tables, p: Buyer, sid: int)
    requires Buys(t, u, p) || Deposits(t, u, p)
    requires p.call.Renew? ==> RenewFacts(t, p) && p.pc.Extended?
    requires HasService(t, sid)
    ensures HasService(u, sid)
    ensures if p.call.Renew? && p.call.serviceId == sid then
              ServiceIn(u, sid).expiresAt == Extend(ServiceIn(t, sid).expiresAt, ServiceIn(t, sid).days, [p.began])
            else ServiceIn(u, sid).expiresAt == ServiceIn(t, sid).expiresAt
  {
  }

  lemma {:induction false} NoRenewals(log: seq<Entry>, sid: int)
    requires forall i :: 0 <= i < |log| ==> !log[i].Bought?
    ensures RenewTimes(log, sid) == []
    decreases |log|
  {
    if log != [] {
      NoRenewals(log[..|log| - 1], sid);
    }
  }

  lemma NextExpiry(s: State, l: Label, s': State, sid: int)
    requires Core(s)
    requires Next(s, l) == Some(s')
    requires HasService(s.db, sid)
    ensures s.log <= s'.log
    ensures HasService(s'.db, sid) && ServiceIn(s'.db, sid).days == ServiceIn(s.db, sid).days
    ensures ServiceIn(s'.db, sid).expiresAt ==
            Extend(ServiceIn(s.db, sid).expiresAt, ServiceIn(s.db, sid).days, RenewTimes(Added(s, s'), sid))
  {
    NextKeepsCore(s, l, s');
    assert SameCore(s.db[ServiceAt(sid)], s'.db[ServiceAt(sid)]);
    if l.Advance? {
      var p := s.procs[l.tid].buyer;
      ReadyFacts(s.db, p);
      AdvanceLogs(s, s', l.tid, p, l.heard);
      AdvanceEffect(s, s', l.tid, p, l.heard);
      AdvanceExpiry(s, s', l.tid, p, sid);
    } else {
      OthersLogWrites(s, l, s');
      OthersSameExpiries(s, l, s');
      NoRenewals(Added(s, s'), sid);
    }
  }

  lemma ExpiryChains(a: seq<Entry>, b: seq<Entry>, c: seq<Entry>, x: Option<int>, y: Option<int>, z: Option<int>,
                     days: int, sid: int)
    requires a <= b <= c
    requires y == Extend(x, days, RenewTimes(b[|a|..], sid)) && z == Extend(y, days, RenewTimes(c[|b|..], sid))
    ensures z == Extend(x, days, RenewTimes(c[|a|..], sid))
  {
    assert c[|a|..] == b[|a|..] + c[|b|..];
    RenewTimesAppend(b[|a|..], c[|b|..], sid);
    ExtendAppend(x, days, RenewTimes(b[|a|..], sid), RenewTimes(c[|b|..], sid));
  }

  lemma {:induction false} RunExpiry(s: State, ls: seq<Label>, s': State, sid: int)
    requires Core(s)
    requires Run(s, ls) == Some(s')
    requires HasService(s.db, sid)
    ensures s.log <= s'.log
    ensures HasService(s'.db, sid) && ServiceIn(s'.db, sid).days == ServiceIn(s.db, sid).days
    ensures ServiceIn(s'.db, sid).expiresAt ==
            Extend(ServiceIn(s.db, sid).expiresAt, ServiceIn(s.db, sid).days, RenewTimes(Added(s, s'), sid))
    decreases |ls|
  {
    if ls == [] {
      assert Added(s, s') == [];
    } else {
      var mid := Next(s, ls[0]).value;
      NextKeepsCore(s, ls[0], mid);
      NextExpiry(s, ls[0], mid, sid);
      RunExpiry(mid, ls[1..], s', sid);
      ExpiryChains(s.log, mid.log, s'.log, ServiceIn(s.db, sid).expiresAt, ServiceIn(mid.db, sid).expiresAt,
                   ServiceIn(s'.db, sid).expiresAt, ServiceIn(s.db, sid).days, sid);
    }
  }

  /** Over any run, a service's expiry is the one its committed renewals build up, in closed
      form, whatever else runs in between. */
  lemma ExpiryOverRuns(s: State, ls: seq<Label>, s': State, sid: int)
    requires Reachable(s) && Run(s, ls) == Some(s') && HasService(s.db, sid)
    ensures s.log <= s'.log && HasService(s'.db, sid)
    ensures var times := RenewTimes(Added(s, s'), sid);
            var before := ServiceIn(s.db, sid); var after := ServiceIn(s'.db, sid);
            if times == [] then after.expiresAt == before.expiresAt
            else after.expiresAt.Some? && Latest(before.expiresAt, before.days, times, after.expiresAt.value)
  {
    Locking.ReachableCore(s);
    RunExpiry(s, ls, s', sid);
    var times := RenewTimes(Added(s, s'), sid);
    if times != [] {
      RenewalClosedForm(ServiceIn(s.db, sid).expiresAt, ServiceIn(s.db, sid).days, times);
    }
  }

  /** With a duration that is not negative, an expiry never moves back, and after a renewal it
      lies at least that duration after the renewal's start. */
  lemma ExpiryNeverMovesBack(s: State, ls: seq<Label>, s': State, sid: int)
    requires Reachable(s) && Run(s, ls) == Some(s') && HasService(s.db, sid)
    requires ServiceIn(s.db, sid).days >= 0
    ensures s.log <= s'.log && HasService(s'.db, sid)
    ensures var before := ServiceIn(s.db, sid).expiresAt; var after := ServiceIn(s'.db, sid).expiresAt;
            before.Some? ==> after.Some? && before.value <= after.value
    ensures var times := RenewTimes(Added(s, s'), sid);
            times != [] ==>
              ServiceIn(s'.db, sid).expiresAt.Some? &&
              times[|times| - 1] + ServiceIn(s.db, sid).days * 86_400 <= ServiceIn(s'.db, sid).expiresAt.value
  {
    ExpiryOverRuns(s, ls, s', sid);
    var times := RenewTimes(Added(s, s'), sid);
    if times != [] {
      var row := ServiceIn(s.db, sid);
      LatestRises(row.expiresAt, row.days, times, ServiceIn(s'.db, sid).expiresAt.value);
    }
  }

  lemma LatestRises(expiry: Option<int>, days: int, times: seq<int>, v: int)
    requires times != [] && days >= 0 && Latest(expiry, days, times, v)
    ensures expiry.Some? ==> expiry.value <= v
    ensures times[|times| - 1] + days * 86_400 <= v
  {
    var n, d := |times|, days * 86_400;
    assert n * d >= 0;
    assert times[n - 1] + (n - (n - 1)) * d <= v;
  }
}
