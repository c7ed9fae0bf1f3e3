/** Every step of every process keeps the core invariant, and no step changes a row that
    another process has locked. */
module CoreSteps {
  import opened Schema
  import opened Repository
  import opened Calls
  import opened Isolation
  import opened Local
  import opened Engine
  import opened CoreInvariant
  import W = Workers

  /** The process a label belongs to, if any. */
  function Actor(l: Label): set<int> {
    match l
    case AddItem(_) => {}
    case AddPanel(_) => {}
    case Sweep(_) => {}
    case Tick(_) => {}
    case _ => {l.tid}
  }

  /** The shape of every step: the actor's process may change, under locks nobody else holds;
      a write set covered by such locks may commit; ids may be drawn. */
  ghost predicate StepShape(s: State, s': State, who: set<int>, w: Tables, held: set<Addr>) {
    && s'.db == s.db + w
    && Covered(s.db, w, held) && held !! Locked(s.procs, who)
    && (forall tid :: tid !in who ==>
        (tid in s'.procs <==> tid in s.procs) && (tid in s.procs ==> s'.procs[tid] == s.procs[tid]))
    && Later(s.seqs, s'.seqs)
    && (forall a :: a in w ==> Typed(a, w[a]) && Issued(s'.seqs, a))
    && (forall tid :: tid in who && tid in s'.procs ==>
          && ProcInv(s'.db, s'.procs[tid])
          && LocksOf(s'.procs[tid]) !! Locked(s.procs, who)
          && (forall a :: a in LocksOf(s'.procs[tid]) ==> Issued(s'.seqs, a)))
    && (forall x, y :: x in who && y in who ==> x == y)
  }

  lemma OtherLocks(s: State, who: set<int>, tid: int)
    requires tid in s.procs && tid !in who
    ensures LocksOf(s.procs[tid]) <= Locked(s.procs, who)
  {
  }

  lemma IssuedLater(p: Seqs, q: Seqs, a: Addr)
    requires Later(p, q) && Issued(p, a)
    ensures Issued(q, a)
  {
  }

  lemma StepKeepsLocks(s: State, s': State, who: set<int>, w: Tables, held: set<Addr>)
    requires Core(s) && StepShape(s, s', who, w, held)
    ensures Exclusive(s'.procs) && LocksIssued(s'.procs, s'.seqs)
  {
    forall a, b, l | a in s'.procs && b in s'.procs && a != b && l in LocksOf(s'.procs[a])
      ensures l !in LocksOf(s'.procs[b])
    {
      if a !in who {
        OtherLocks(s, who, a);
      }
      if b !in who {
        OtherLocks(s, who, b);
      }
    }
    forall tid, a | tid in s'.procs && a in LocksOf(s'.procs[tid])
      ensures Issued(s'.seqs, a)
    {
      if tid !in who {
        IssuedLater(s.seqs, s'.seqs, a);
      }
    }
  }

  lemma StepKeepsCore(s: State, s': State, who: set<int>, w: Tables, held: set<Addr>)
    requires Core(s) && StepShape(s, s', who, w, held)
    ensures Core(s')
    ensures Preserves(s.db, s'.db, Locked(s.procs, who))
  {
    CommitPreserves(s.db, w, held, Locked(s.procs, who));
    StepKeepsLocks(s, s', who, w, held);
    forall tid | tid in s'.procs
      ensures ProcInv(s'.db, s'.procs[tid])
    {
      if tid !in who {
        OtherLocks(s, who, tid);
        assert Preserves(s.db, s'.db, LocksOf(s.procs[tid]));
        ProcStays(s.db, s'.db, s.procs[tid]);
      }
    }
    forall a | a in s'.db
      ensures Typed(a, s'.db[a]) && Issued(s'.seqs, a)
    {
      if a !in w {
        IssuedLater(s.seqs, s'.seqs, a);
      }
    }
  }

  lemma NotIssuedFree(s: State, who: set<int>, a: Addr)
    requires Core(s) && !Issued(s.seqs, a)
    ensures a !in s.db && a !in Locked(s.procs, who)
  {
  }

  lemma SequenceIdsFresh(s: State, call: Call)
    requires Core(s)
    ensures FreshIds(s.db, SequenceIds(s.seqs), call)
  {
  }

  lemma OwnLocks(s: State, tid: int)
    requires Core(s) && tid in s.procs
    ensures LocksOf(s.procs[tid]) !! Locked(s.procs, {tid})
  {
  }

  /** A row a buyer asks to lock is committed, so it has been issued. */
  lemma AskedIssued(s: State, p: Buyer)
    requires Core(s)
    ensures forall a :: a in Asked(s.db, p) ==> Issued(s.seqs, a)
  {
  }

  lemma InsertedFresh(s: State, tid: int, p: Buyer)
    requires Core(s)
    ensures Inserted(SequenceIds(s.seqs), p) !! Locked(s.procs, {tid})
    ensures forall a :: a in Inserted(SequenceIds(s.seqs), p) ==> Issued(Draw(s.seqs, p), a)
    ensures Later(s.seqs, Draw(s.seqs, p))
  {
    NotIssuedFree(s, {tid}, LedgerAt(s.seqs.ledger));
    NotIssuedFree(s, {tid}, OrderAt(s.seqs.order));
    NotIssuedFree(s, {tid}, JobAt(s.seqs.job));
  }

  /** The process goes on without a commit, with `extra` locks nobody else holds. */
  lemma Moves(s: State, s': State, tid: int, next: Proc, extra: set<Addr>)
    requires Core(s)
    requires s'.db == s.db && s'.procs == s.procs[tid := next] && Later(s.seqs, s'.seqs)
    requires ProcInv(s.db, next)
    requires LocksOf(next) <= (if tid in s.procs then LocksOf(s.procs[tid]) else {}) + extra
    requires extra !! Locked(s.procs, {tid})
    requires forall a :: a in extra ==> Issued(s'.seqs, a)
    ensures StepShape(s, s', {tid}, map[], {})
  {
    if tid in s.procs {
      OwnLocks(s, tid);
    }
    NothingCovered(s.db);
    forall a | a in LocksOf(next)
      ensures a !in Locked(s.procs, {tid}) && Issued(s'.seqs, a)
    {
      if a !in extra {
        assert Issued(s.seqs, a);
        IssuedLater(s.seqs, s'.seqs, a);
      }
    }
  }

  /** The process ends or goes on holding no lock, having committed `w`. */
  lemma Lands(s: State, s': State, tid: int, w: Tables, held: set<Addr>)
    requires Core(s)
    requires s'.db == s.db + w && Later(s.seqs, s'.seqs)
    requires s'.procs - {tid} == s.procs - {tid}
    requires tid in s'.procs ==> LocksOf(s'.procs[tid]) == {} && ProcInv(s'.db, s'.procs[tid])
    requires Covered(s.db, w, held) && held !! Locked(s.procs, {tid})
    requires forall a :: a in w ==> Typed(a, w[a]) && Issued(s'.seqs, a)
    ensures StepShape(s, s', {tid}, w, held)
  {
    forall t | t != tid
      ensures t in s'.procs <==> t in s.procs
      ensures t in s.procs ==> s'.procs[t] == s.procs[t]
    {
      assert t in s'.procs - {tid} <==> t in s.procs - {tid};
      assert t in s.procs ==> (s'.procs - {tid})[t] == (s.procs - {tid})[t];
    }
  }

  lemma NothingCovered(t: Tables)
    ensures Covered(t, map[], {}) && t + map[] == t
  {
  }

  lemma TouchedTyped(t: Tables, p: Buyer)
    requires WritesInv(t, p)
    ensures forall a :: a in p.writes ==> Typed(a, p.writes[a])
  {
  }

  lemma BuyerReady(t: Tables, p: Buyer)
    requires BuyerInv(t, p)
    ensures Covered(t, p.writes, p.locks)
    ensures forall a :: a in p.writes ==> a in p.locks && Typed(a, p.writes[a])
  {
    BuyerCovered(t, p);
    TouchedTyped(t, p);
  }

  lemma ContinueKeepsCore(s: State, s': State, tid: int, p: Buyer, next: Buyer)
    requires Core(s) && tid in s.procs && s.procs[tid] == Buying(p)
    requires !Waits(s, tid, Requests(s.db, p))
    requires Statement(s.db, SequenceIds(s.seqs), p) == Continue(next)
    requires s' == s.(procs := s.procs[tid := Buying(next)], seqs := Draw(s.seqs, p))
    ensures Core(s') && Preserves(s.db, s'.db, Locked(s.procs, {tid}))
  {
    SequenceIdsFresh(s, p.call);
    BuyerStep(s.db, SequenceIds(s.seqs), p);
    AskedIssued(s, p);
    InsertedFresh(s, tid, p);
    var extra := Asked(s.db, p) + Inserted(SequenceIds(s.seqs), p);
    forall a | a in extra
      ensures Issued(s'.seqs, a)
    {
      if a in Asked(s.db, p) {
        IssuedLater(s.seqs, s'.seqs, a);
      }
    }
    Moves(s, s', tid, Buying(next), extra);
    StepKeepsCore(s, s', {tid}, map[], {});
  }

  lemma CommitKeepsCore(s: State, s': State, tid: int, p: Proc, w: Tables)
    requires Core(s) && tid in s.procs && s.procs[tid] == p
    requires s'.db == s.db + w && Later(s.seqs, s'.seqs)
    requires s'.procs - {tid} == s.procs - {tid}
    requires tid in s'.procs ==> LocksOf(s'.procs[tid]) == {} && ProcInv(s'.db, s'.procs[tid])
    requires Covered(s.db, w, LocksOf(p))
    requires forall a :: a in w ==> a in LocksOf(p) && Typed(a, w[a])
    ensures Core(s') && Preserves(s.db, s'.db, Locked(s.procs, {tid}))
  {
    OwnLocks(s, tid);
    forall a | a in w
      ensures Issued(s'.seqs, a)
    {
      IssuedLater(s.seqs, s'.seqs, a);
    }
    Lands(s, s', tid, w, LocksOf(p));
    StepKeepsCore(s, s', {tid}, w, LocksOf(p));
  }

  lemma EndKeepsCore(s: State, s': State, tid: int)
    requires Core(s)
    requires s'.db == s.db && Later(s.seqs, s'.seqs) && s'.procs == s.procs - {tid}
    ensures Core(s') && Preserves(s.db, s'.db, Locked(s.procs, {tid}))
  {
    NothingCovered(s.db);
    Lands(s, s', tid, map[], {});
    StepKeepsCore(s, s', {tid}, map[], {});
  }

  lemma AdvanceKeepsCore(s: State, s': State, tid: int, p: Buyer, heard: bool)
    requires Core(s) && tid in s.procs && s.procs[tid] == Buying(p)
    requires AdvanceBuyer(s, tid, p, heard) == Some(s')
    ensures Core(s') && Preserves(s.db, s'.db, Locked(s.procs, {tid}))
  {
    match Statement(s.db, SequenceIds(s.seqs), p)
    case Continue(next) => ContinueKeepsCore(s, s', tid, p, next);
    case Committed(r) =>
      BuyerReady(s.db, p);
      CommitKeepsCore(s, s', tid, Buying(p), p.writes);
    case _ => EndKeepsCore(s, s', tid);
  }

  lemma WorkerOnward(t: Tables, newService: int, answer: Option<int>, w: W.Worker, next: W.Worker)
    requires WorkerInv(t, w)
    requires ServiceAt(newService) !in t
    requires W.WorkStatement(t, newService, answer, w) == W.Onward(next)
    ensures WorkerInv(t, next)
    ensures next.locks <= w.locks + (if w.stage.Answered? then {ServiceAt(newService)} else {}) +
                          (if W.WorkRequests(t, w).Some? then {W.WorkRequests(t, w).value} else {})
  {
  }

  lemma WorkerPersists(t: Tables, w: W.Worker)
    requires WorkerInv(t, w) && w.stage.Joined?
    ensures WorkerInv(t + w.writes, w.(stage := W.Persisted, writes := map[], locks := {}))
    ensures WorkerInv(t + w.writes, W.Abandon(w))
    ensures forall a :: a in w.writes ==> a in w.locks && Typed(a, w.writes[a])
  {
  }

  lemma WorkerEnds(t: Tables, newService: int, answer: Option<int>, w: W.Worker, writes: Tables)
    requires WorkerInv(t, w)
    requires W.WorkStatement(t, newService, answer, w) == W.Finished(writes)
    ensures writes.Keys == {JobAt(w.job)} && w.locks == {}
    ensures writes[JobAt(w.job)].JobRow? && Covered(t, writes, {JobAt(w.job)})
  {
  }

  /** An autocommitted statement: its rows are locked by no other process. */
  lemma AutoKeepsCore(s: State, s': State, who: set<int>, w: Tables)
    requires Core(s)
    requires s'.db == s.db + w && Later(s.seqs, s'.seqs)
    requires s'.procs - who == s.procs - who
    requires forall x, y :: x in who && y in who ==> x == y
    requires forall tid :: tid in who && tid in s'.procs ==>
               LocksOf(s'.procs[tid]) == {} && ProcInv(s'.db, s'.procs[tid])
    requires Covered(s.db, w, w.Keys) && w.Keys !! Locked(s.procs, who)
    requires forall a :: a in w ==> Typed(a, w[a]) && Issued(s'.seqs, a)
    ensures Core(s') && Preserves(s.db, s'.db, Locked(s.procs, who))
  {
    forall t | t !in who
      ensures t in s'.procs <==> t in s.procs
      ensures t in s.procs ==> s'.procs[t] == s.procs[t]
    {
      assert t in s'.procs - who <==> t in s.procs - who;
      assert t in s.procs ==> (s'.procs - who)[t] == (s.procs - who)[t];
    }
    StepKeepsCore(s, s', who, w, w.Keys);
  }

  lemma WorkOnKeepsCore(s: State, s': State, tid: int, w: W.Worker, next: W.Worker, extra: set<Addr>)
    requires Core(s) && tid in s.procs && s.procs[tid] == Working(w)
    requires s'.db == s.db && s'.procs == s.procs[tid := Working(next)] && Later(s.seqs, s'.seqs)
    requires WorkerInv(s.db, next) && next.locks <= w.locks + extra
    requires extra !! Locked(s.procs, {tid})
    requires forall a :: a in extra ==> Issued(s'.seqs, a)
    ensures Core(s') && Preserves(s.db, s'.db, Locked(s.procs, {tid}))
  {
    Moves(s, s', tid, Working(next), extra);
    StepKeepsCore(s, s', {tid}, map[], {});
  }

  lemma OnwardKeepsCore(s: State, s': State, tid: int, w: W.Worker, answer: Option<int>, next: W.Worker)
    requires Core(s) && tid in s.procs && s.procs[tid] == Working(w)
    requires !Waits(s, tid, W.WorkRequests(s.db, w))
    requires W.WorkStatement(s.db, s.seqs.service, answer, w) == W.Onward(next)
    requires s' == s.(procs := s.procs[tid := Working(next)],
                      seqs := if w.stage.Answered? then s.seqs.(service := s.seqs.service + 1) else s.seqs)
    ensures Core(s') && Preserves(s.db, s'.db, Locked(s.procs, {tid}))
  {
    NotIssuedFree(s, {tid}, ServiceAt(s.seqs.service));
    WorkerOnward(s.db, s.seqs.service, answer, w, next);
    if w.stage.Answered? {
      WorkOnKeepsCore(s, s', tid, w, next, {ServiceAt(s.seqs.service)});
    } else if W.WorkRequests(s.db, w).Some? {
      WorkOnKeepsCore(s, s', tid, w, next, {W.WorkRequests(s.db, w).value});
    } else {
      WorkOnKeepsCore(s, s', tid, w, next, {});
    }
  }

  lemma PersistKeepsCore(s: State, s': State, tid: int, w: W.Worker, next: W.Worker)
    requires Core(s) && tid in s.procs && s.procs[tid] == Working(w) && w.stage.Joined?
    requires next == w.(stage := W.Persisted, writes := map[], locks := {}) || next == W.Abandon(w)
    requires s'.db == s.db + w.writes && s'.procs == s.procs[tid := Working(next)] && s'.seqs == s.seqs
    ensures Core(s') && Preserves(s.db, s'.db, Locked(s.procs, {tid}))
  {
    assert ProcInv(s.db, s.procs[tid]);
    WorkerCovered(s.db, w);
    WorkerPersists(s.db, w);
    CommitKeepsCore(s, s', tid, Working(w), w.writes);
  }

  lemma FinishKeepsCore(s: State, s': State, tid: int, w: W.Worker, answer: Option<int>, writes: Tables)
    requires Core(s) && tid in s.procs && s.procs[tid] == Working(w)
    requires W.WorkStatement(s.db, s.seqs.service, answer, w) == W.Finished(writes)
    requires JobAt(w.job) !in Locked(s.procs, {tid})
    requires s'.db == s.db + writes && s'.procs == s.procs - {tid} && s'.seqs == s.seqs
    ensures Core(s') && Preserves(s.db, s'.db, Locked(s.procs, {tid}))
  {
    assert ProcInv(s.db, s.procs[tid]);
    WorkerEnds(s.db, s.seqs.service, answer, w, writes);
    AutoKeepsCore(s, s', {tid}, writes);
  }

  lemma WorkKeepsCore(s: State, s': State, tid: int, w: W.Worker, answer: Option<int>, heard: bool)
    requires Core(s) && tid in s.procs && s.procs[tid] == Working(w)
    requires AdvanceWorker(s, tid, w, answer, heard) == Some(s')
    ensures Core(s') && Preserves(s.db, s'.db, Locked(s.procs, {tid}))
  {
    var out := W.WorkStatement(s.db, s.seqs.service, answer, w);
    if out.Onward? {
      OnwardKeepsCore(s, s', tid, w, answer, out.next);
    } else if out.Durable? {
      PersistKeepsCore(s, s', tid, w, s'.procs[tid].worker);
    } else {
      FinishKeepsCore(s, s', tid, w, answer, out.writes);
    }
  }

  lemma FaultKeepsCore(s: State, s': State, tid: int, w: W.Worker)
    requires Core(s) && tid in s.procs && s.procs[tid] == Working(w) && W.WorkFault(w).Some?
    requires s' == s.(procs := s.procs[tid := Working(W.WorkFault(w).value)])
    ensures Core(s') && Preserves(s.db, s'.db, Locked(s.procs, {tid}))
  {
    assert ProcInv(s.db, s.procs[tid]);
    WorkOnKeepsCore(s, s', tid, w, W.WorkFault(w).value, {});
  }

  lemma DisruptKeepsCore(s: State, s': State, tid: int)
    requires Core(s)
    requires Interrupt(s, tid) == Some(s')
    ensures Core(s') && Preserves(s.db, s'.db, Locked(s.procs, {tid}))
  {
    match s.procs[tid]
    case Buying(p) =>
      EndKeepsCore(s, s', tid);
    case Working(w) =>
      if W.WorkFault(w).None? {
        EndKeepsCore(s, s', tid);
      } else {
        FaultKeepsCore(s, s', tid, w);
      }
    case _ => EndKeepsCore(s, s', tid);
  }

  lemma StatusKeepsCore(s: State, s': State, tid: int, v: int, sid: int, status: ServiceStatus)
    requires Core(s) && tid in s.procs
    requires UpdateStatus(s, tid, v, sid, status) == Some(s')
    ensures Core(s') && Preserves(s.db, s'.db, Locked(s.procs, {tid}))
  {
    AutoKeepsCore(s, s', {tid}, StatusWrite(s.db, v, sid, status));
  }

  lemma InsertKeepsCore(s: State, s': State, who: set<int>, a: Addr, row: Row)
    requires Core(s)
    requires !Issued(s.seqs, a) && Typed(a, row) && Issued(s'.seqs, a)
    requires a.WalletAt? ==> a.id == s.seqs.wallet
    requires s'.db == s.db + map[a := row] && Later(s.seqs, s'.seqs)
    requires s'.procs - who == s.procs - who
    requires forall x, y :: x in who && y in who ==> x == y
    requires forall tid :: tid in who && tid in s'.procs ==>
               LocksOf(s'.procs[tid]) == {} && ProcInv(s'.db, s'.procs[tid])
    ensures Core(s') && Preserves(s.db, s'.db, Locked(s.procs, who))
  {
    NotIssuedFree(s, who, a);
    AutoKeepsCore(s, s', who, map[a := row]);
  }

  lemma RegisterKeepsCore(s: State, s': State, tid: int, email: string)
    requires Core(s)
    requires RegisterUser(s, tid, email) == Some(s')
    ensures Core(s') && Preserves(s.db, s'.db, Locked(s.procs, {tid}))
  {
    InsertKeepsCore(s, s', {tid}, UserAt(s.seqs.user), UserRow(email));
  }

  lemma EnsureKeepsCore(s: State, s': State, tid: int)
    requires Core(s)
    requires EnsureForUser(s, tid) == Some(s')
    ensures Core(s') && Preserves(s.db, s'.db, Locked(s.procs, {tid}))
  {
    InsertKeepsCore(s, s', {tid}, WalletAt(s.seqs.wallet), WalletRow(Wallet(s.procs[tid].userId, 0)));
  }

  lemma ProvisionKeepsCore(s: State, s': State, tid: int, row: Service)
    requires Core(s)
    requires ProvisionService(s, tid, row) == Some(s')
    ensures Core(s') && Preserves(s.db, s'.db, Locked(s.procs, {tid}))
  {
    InsertKeepsCore(s, s', {tid}, ServiceAt(s.seqs.service), ServiceRow(row));
  }

  lemma ItemKeepsCore(s: State, s': State, item: Item)
    requires Core(s)
    requires InsertItem(s, item) == Some(s')
    ensures Core(s') && Preserves(s.db, s'.db, Locked(s.procs, {}))
  {
    InsertKeepsCore(s, s', {}, ItemAt(s.seqs.item), ItemRow(item));
  }

  lemma PanelKeepsCore(s: State, s': State, panel: Panel)
    requires Core(s)
    requires InsertPanel(s, panel) == s'
    ensures Core(s') && Preserves(s.db, s'.db, Locked(s.procs, {}))
  {
    InsertKeepsCore(s, s', {}, PanelAt(s.seqs.panel), PanelRow(panel));
  }

  lemma ClaimKeepsCore(s: State, s': State, tid: int)
    requires Core(s)
    requires ClaimNext(s, tid) == Some(s')
    ensures Core(s') && Preserves(s.db, s'.db, Locked(s.procs, {tid}))
  {
    var j := Least(W.Claimable(s.db, Locked(s.procs, {})));
    var w := map[JobAt(j) := JobRow(JobIn(s.db, j).(status := JobProvisioning))];
    assert Locked(s.procs, {tid}) <= Locked(s.procs, {});
    AutoKeepsCore(s, s', {tid}, w);
  }

  lemma SweepKeepsCore(s: State, s': State, at: int)
    requires Core(s)
    requires SweepExpired(s, at) == Some(s')
    ensures Core(s') && Preserves(s.db, s'.db, Locked(s.procs, {}))
  {
    AutoKeepsCore(s, s', {}, SweepWrite(s.db, at));
  }

  lemma StartKeepsCore(s: State, s': State, tid: int, p: Proc)
    requires Core(s) && tid !in s.procs
    requires s' == s.(procs := s.procs[tid := p])
    requires ProcInv(s.db, p) && LocksOf(p) == {}
    ensures Core(s') && Preserves(s.db, s'.db, Locked(s.procs, {tid}))
  {
  }

  lemma IdleKeepsCore(s: State, s': State)
    requires Core(s)
    requires s'.db == s.db && s'.procs == s.procs && s'.seqs == s.seqs
    ensures Core(s') && Preserves(s.db, s'.db, Locked(s.procs, {}))
  {
  }

  /** The steps of the calls and workers. */
  predicate StepsProcess(l: Label) {
    l.Submit? || l.Advance? || l.Disrupt? || l.Crash? || l.Claim? || l.Work?
  }

  lemma ProcessKeepsCore(s: State, l: Label, s': State)
    requires Core(s)
    requires Next(s, l) == Some(s') && StepsProcess(l)
    ensures Core(s')
    ensures Preserves(s.db, s'.db, Locked(s.procs, Actor(l)))
  {
    match l
    case Submit(tid, call) => StartKeepsCore(s, s', tid, Buying(Begin(call, s.clock)));
    case Advance(tid, heard) => AdvanceKeepsCore(s, s', tid, s.procs[tid].buyer, heard);
    case Disrupt(tid) => DisruptKeepsCore(s, s', tid);
    case Crash(tid) => EndKeepsCore(s, s', tid);
    case Claim(tid) => ClaimKeepsCore(s, s', tid);
    case Work(tid, answer, heard) => WorkKeepsCore(s, s', tid, s.procs[tid].worker, answer, heard);
  }

  lemma ReplyKeepsCore(s: State, l: Label, s': State)
    requires Core(s)
    requires Next(s, l) == Some(s') && (l.PanelReply? || l.SetStatus?)
    ensures Core(s')
    ensures Preserves(s.db, s'.db, Locked(s.procs, Actor(l)))
  {
    var p := s.procs[l.tid];
    if l.PanelReply? {
      StatusKeepsCore(s, s', l.tid, p.vendor, p.svc, if l.ok then Active else ProvisionFailed);
    } else {
      StatusKeepsCore(s, s', l.tid, p.vendor, p.svc, p.target);
    }
  }

  lemma OtherKeepsCore(s: State, l: Label, s': State)
    requires Core(s)
    requires Next(s, l) == Some(s') && !StepsProcess(l)
    ensures Core(s')
    ensures Preserves(s.db, s'.db, Locked(s.procs, Actor(l)))
  {
    match l
    case Register(tid, email) => RegisterKeepsCore(s, s', tid, email);
    case EnsureWallet(tid) => EnsureKeepsCore(s, s', tid);
    case Provision(tid, v, u, order, protocol, traffic, days) =>
      var expires := Some(s.clock + days * DAY);
      ProvisionKeepsCore(s, s', tid, Service(v, u, order, protocol, Provisioning, expires, traffic, days));
    case PanelReply(_, _) => ReplyKeepsCore(s, l, s');
    case ReadService(tid, v, sid, target) => StartKeepsCore(s, s', tid, Toggling(v, sid, target));
    case SetStatus(_) => ReplyKeepsCore(s, l, s');
    case AddItem(item) => ItemKeepsCore(s, s', item);
    case AddPanel(panel) => PanelKeepsCore(s, s', panel);
    case Sweep(at) => SweepKeepsCore(s, s', at);
    case Tick(_) => IdleKeepsCore(s, s');
  }

  /** The core invariant is inductive, and a step leaves alone every row locked by a process
      other than the one that takes it. */
  lemma NextKeepsCore(s: State, l: Label, s': State)
    requires Core(s)
    requires Next(s, l) == Some(s')
    ensures Core(s')
    ensures Preserves(s.db, s'.db, Locked(s.procs, Actor(l)))
  {
    if StepsProcess(l) {
      ProcessKeepsCore(s, l, s');
    } else {
      OtherKeepsCore(s, l, s');
    }
  }

  lemma InitialCore()
    ensures Core(INITIAL)
  {
  }
}
