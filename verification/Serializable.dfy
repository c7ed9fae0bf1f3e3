/** Any interleaving of any number of Create, Renew and ApplyTransaction calls and of workers, each
    able to fail at any statement, leaves the database that running the committed calls and job
    handlings alone, each from its first statement and in commit order, would have left. */
module Serializable {
  import opened Schema
  import opened Repository
  import opened Calls
  import opened Local
  import opened Engine
  import opened CoreInvariant
  import opened CoreSteps
  import W = Workers

  /** The call is about to commit. */
  predicate Ready(p: Buyer) {
    match p.call
    case Create(_, _, _, _) => p.pc.Queued?
    case Renew(_, _, _) => p.pc.Extended?
    case TopUp(_, _) => p.pc.Logged?
  }

  function FinalReply(p: Buyer): Calls.Reply {
    if p.call.TopUp? then Applied else Placed(p.ids.order, StateApproved, StatePending, false)
  }

  lemma OnlyReadyCommits(t: Tables, ids: Ids, p: Buyer)
    requires OnPath(p)
    ensures Statement(t, ids, p).Committed? <==> Ready(p)
    ensures Ready(p) ==> Statement(t, ids, p) == Committed(FinalReply(p))
  {
  }

  /** `q` has drawn the ids of `p` as far as it has come. */
  predicate SameIds(q: Buyer, p: Buyer) {
    && (Rank(q.pc) >= 7 ==> q.ids.ledger == p.ids.ledger)
    && (Rank(q.pc) >= 8 ==> q.ids.order == p.ids.order)
    && (Rank(q.pc) >= 10 ==> q.ids.job == p.ids.job)
  }

  /** `q` is an earlier or equal point, on the same tables, of the run that made `p`. */
  ghost predicate Behind(t: Tables, q: Buyer, p: Buyer) {
    && BuyerInv(t, q)
    && q.call == p.call && q.began == p.began
    && SameIds(q, p)
  }

  /** The tables determine what a call has read. */
  lemma SameReads(t: Tables, q: Buyer, p: Buyer)
    requires Behind(t, q, p)
    requires BuyerInv(t, p) && Ready(p)
    ensures Rank(q.pc) >= 3 && !p.call.TopUp? ==>
              q.vendor == p.vendor && q.catalog == p.catalog && q.price == p.price && KeyOf(q) == KeyOf(p)
    ensures p.call.Renew? && Rank(q.pc) >= 1 ==> q.vendor == p.vendor && q.ref == p.ref && q.days == p.days
    ensures p.call.Renew? && Rank(q.pc) >= 2 ==> q.catalog == p.catalog
    ensures Rank(q.pc) >= 5 ==> q.wallet == p.wallet
    ensures !q.pc.Hit?
  {
  }

  /** Two finished write sets over the same tables with the same locals are the same. */
  lemma WritesDetermined(t: Tables, q: Buyer, p: Buyer)
    requires WritesInv(t, q) && WritesInv(t, p)
    requires q.call == p.call && q.pc == p.pc && q.began == p.began && q.ids.ledger == p.ids.ledger
    requires !p.call.TopUp? ==> q.ids == p.ids
    requires OnPath(p) && Rank(p.pc) >= 7
    requires q.wallet == p.wallet && q.price == p.price && q.vendor == p.vendor && q.catalog == p.catalog
    requires p.call.Renew? ==> q.days == p.days
    ensures q.writes == p.writes
  {
  }

  lemma SameWrites(t: Tables, q: Buyer, p: Buyer)
    requires Behind(t, q, p) && Ready(q)
    requires BuyerInv(t, p) && Ready(p)
    ensures q.writes == p.writes
    ensures FinalReply(q) == FinalReply(p)
  {
    SameReads(t, q, p);
    if p.call.TopUp? {
      WritesDetermined(t, q.(price := 0, vendor := 0, catalog := 0), p.(price := 0, vendor := 0, catalog := 0));
    } else {
      WritesDetermined(t, q, p);
    }
  }

  lemma LookupGoesOn(t: Tables, q: Buyer, p: Buyer)
    requires Behind(t, q, p) && Rank(q.pc) < 3
    requires BuyerInv(t, p) && Ready(p)
    ensures Lookup(t, q).Continue?
  {
    SameReads(t, q, p);
    if p.call.Create? {
      assert KeyOf(p) == KeyAt(p.call.vendorId, p.call.userId, p.call.key);
    }
  }

  lemma ReserveGoesOn(t: Tables, q: Buyer, p: Buyer)
    requires WritesInv(t, q) && q.pc.Priced? && OnPath(q)
    requires KeyOf(q) == KeyOf(p) && KeyOf(p) !in t
    ensures ReserveKey(t + q.writes, q).Continue?
  {
  }

  lemma LockGoesOn(t: Tables, q: Buyer, p: Buyer)
    requires WritesInv(t, q) && q.pc.Reserved? && OnPath(q)
    requires TailFacts(t, p) && Rank(p.pc) >= 5 && !p.call.TopUp?
    requires q.call == p.call && q.price == p.price
    ensures LockWallet(t + q.writes, q).Continue?
  {
    assert WalletsOf(t + q.writes, q.call.userId) == WalletsOf(t, q.call.userId);
  }

  lemma UpdateGoesOn(t: Tables, q: Buyer, p: Buyer)
    requires WritesInv(t, q) && q.pc.WalletLocked?
    requires TailFacts(t, p) && Rank(p.pc) >= 6
    requires q.call == p.call && q.wallet == p.wallet
    requires !p.call.TopUp? ==> q.price == p.price
    ensures UpdateBalance(t + q.writes, q).Continue?
  {
  }

  lemma TailGoesOn(t: Tables, ids: Ids, q: Buyer)
    requires OnPath(q) && Rank(q.pc) >= 6 && !Ready(q)
    ensures Purchase(t, ids, q).Continue?
  {
  }

  lemma PurchaseGoesOn(t: Tables, q: Buyer, p: Buyer)
    requires Behind(t, q, p) && 3 <= Rank(q.pc) && !Ready(q)
    requires BuyerInv(t, p) && Ready(p)
    ensures Purchase(t, p.ids, q).Continue?
  {
    SameReads(t, q, p);
    match q.pc
    case Priced => ReserveGoesOn(t, q, p);
    case Reserved => LockGoesOn(t, q, p);
    case WalletLocked => UpdateGoesOn(t, q, p);
    case _ => TailGoesOn(t, p.ids, q);
  }

  lemma GoesOn(t: Tables, q: Buyer, p: Buyer)
    requires Behind(t, q, p) && !Ready(q)
    requires BuyerInv(t, p) && Ready(p)
    ensures Statement(t, p.ids, q).Continue?
  {
    if Rank(q.pc) < 3 {
      LookupGoesOn(t, q, p);
    } else {
      PurchaseGoesOn(t, q, p);
    }
  }

  lemma DrawsSameIds(t: Tables, q: Buyer, p: Buyer, next: Buyer)
    requires SameIds(q, p)
    requires Statement(t, p.ids, q) == Continue(next)
    ensures SameIds(next, p) && next.call == q.call && next.began == q.began
  {
  }

  lemma StaysBehind(t: Tables, q: Buyer, p: Buyer, next: Buyer)
    requires Behind(t, q, p)
    requires FreshIds(t, p.ids, p.call)
    requires Statement(t, p.ids, q) == Continue(next)
    ensures Behind(t, next, p)
  {
    BuyerStep(t, p.ids, q);
    DrawsSameIds(t, q, p, next);
  }

  lemma {:induction false} CatchesUp(t: Tables, q: Buyer, p: Buyer)
    requires Behind(t, q, p)
    requires BuyerInv(t, p) && Ready(p)
    requires FreshIds(t, p.ids, p.call)
    ensures Solo(t, p.ids, q, {}) == Result(t + p.writes, FinalReply(p))
    decreases 12 - Rank(q.pc)
  {
    OnlyReadyCommits(t, p.ids, q);
    if Ready(q) {
      SameWrites(t, q, p);
    } else {
      GoesOn(t, q, p);
      var next := Statement(t, p.ids, q).next;
      StaysBehind(t, q, p, next);
      CatchesUp(t, next, p);
    }
  }

  /** A job handled from its first statement to its commit, when the panel answers `expires`: the
      statement after the commit is cut off. */
  function Handle(t: Tables, job: int, svc: int, expires: int): Tables {
    if !HasJob(t, job) then t
    else W.WorkAlone(t, svc, Some(expires), W.Claim(job, JobIn(t, job)), {W.Persisted}, false)
  }

  /** One committed change, made to tables `t` with nothing else running. */
  function Redo(t: Tables, e: Entry): Tables {
    match e
    case Bought(_, call, ids, began) => RunAlone(t, ids, call, began, {}).tables
    case Handled(job, svc, expires) => Handle(t, job, svc, expires)
    case Wrote(w) => t + w
  }

  /** The database that the committed changes leave when they run one after the other. */
  function Replay(log: seq<Entry>): Tables {
    if log == [] then map[] else Redo(Replay(log[..|log| - 1]), log[|log| - 1])
  }

  /** The reply that the logged call gives when it runs alone at its place in the log. */
  function ReplyAlone(log: seq<Entry>, i: nat): Calls.Reply
    requires i < |log| && log[i].Bought?
  {
    RunAlone(Replay(log[..i]), log[i].ids, log[i].call, log[i].began, {}).reply
  }

  /** The logged call has been answered as it is when it runs alone there, which is a success, or
      by a fault, because the acknowledgement of its commit was lost. */
  ghost predicate Answered(s: State, i: nat)
    requires i < |s.log| && s.log[i].Bought?
  {
    && s.log[i].tid in s.answers
    && s.answers[s.log[i].tid].call == s.log[i].call
    && Successful(ReplyAlone(s.log, i))
    && (s.answers[s.log[i].tid].reply == ReplyAlone(s.log, i) || s.answers[s.log[i].tid].reply == Refused(Fault))
  }

  /** The log holds, each once, the calls whose commit took effect; every call answered with
      success is among them. */
  ghost predicate Faithful(s: State) {
    && (forall i :: 0 <= i < |s.log| && s.log[i].Bought? ==> Answered(s, i))
    && (forall i, j :: 0 <= i < j < |s.log| && s.log[i].Bought? && s.log[j].Bought? ==> s.log[i].tid != s.log[j].tid)
    && (forall tid :: tid in s.answers && Successful(s.answers[tid].reply) ==>
          exists i :: 0 <= i < |s.log| && s.log[i].Bought? && s.log[i].tid == tid)
  }

  ghost predicate Serial(s: State) {
    s.procs.Keys !! s.answers.Keys && s.db == Replay(s.log) && Faithful(s)
  }

  lemma BeginBehind(t: Tables, call: Call, began: int, p: Buyer)
    requires p.call == call && p.began == began
    requires call.TopUp? ==> IsInt64(call.amount)
    ensures Behind(t, Begin(call, began), p)
  {
  }

  /** The whole call, from its first statement, ends as the process `p` does. */
  lemma RunsAloneTo(t: Tables, p: Buyer)
    requires BuyerInv(t, p) && Ready(p)
    requires FreshIds(t, p.ids, p.call)
    ensures RunAlone(t, p.ids, p.call, p.began, {}) == Result(t + p.writes, FinalReply(p))
  {
    BeginBehind(t, p.call, p.began, p);
    CatchesUp(t, Begin(p.call, p.began), p);
  }

  lemma FinishedRunsAlone(s: State, tid: int, p: Buyer)
    requires Core(s) && tid in s.procs && s.procs[tid] == Buying(p)
    requires Ready(p)
    ensures RunAlone(s.db, p.ids, p.call, p.began, {}) == Result(s.db + p.writes, FinalReply(p))
  {
    assert BuyerInv(s.db, p);
    RunsAloneTo(s.db, p);
  }

  lemma ReplayAppends(log: seq<Entry>, e: Entry)
    ensures Replay(log + [e]) == Redo(Replay(log), e)
  {
  }

  /** Neither the log nor a successful answer is added: a rolled-back call leaves no trace. */
  lemma NoTrace(s: State, s': State)
    requires Serial(s)
    requires s'.db == s.db && s'.log == s.log
    requires s'.procs.Keys !! s'.answers.Keys
    requires forall tid :: tid in s.answers ==> tid in s'.answers && s'.answers[tid] == s.answers[tid]
    requires forall tid :: tid in s'.answers && tid !in s.answers ==> !Successful(s'.answers[tid].reply)
    ensures Serial(s')
  {
    forall i | 0 <= i < |s'.log| && s'.log[i].Bought?
      ensures Answered(s', i)
    {
      assert Answered(s, i);
    }
  }

  lemma LogsOther(s: State, s': State, e: Entry)
    requires Serial(s) && !e.Bought?
    requires s'.db == Redo(s.db, e) && s'.log == s.log + [e] && s'.answers == s.answers
    requires s'.procs.Keys !! s'.answers.Keys
    ensures Serial(s')
  {
    ReplayAppends(s.log, e);
    forall i | 0 <= i < |s'.log| && s'.log[i].Bought?
      ensures i < |s.log| && Answered(s', i)
    {
      assert s'.log[i] == s.log[i] && s'.log[..i] == s.log[..i] && Answered(s, i);
    }
    forall tid | tid in s'.answers && Successful(s'.answers[tid].reply)
      ensures exists i :: 0 <= i < |s'.log| && s'.log[i].Bought? && s'.log[i].tid == tid
    {
      var i :| 0 <= i < |s.log| && s.log[i].Bought? && s.log[i].tid == tid;
      assert s'.log[i] == s.log[i];
    }
  }

  lemma LogsCall(s: State, s': State, tid: int, p: Buyer, reply: Calls.Reply)
    requires Core(s) && Serial(s)
    requires tid in s.procs && s.procs[tid] == Buying(p) && Ready(p)
    requires s'.db == s.db + p.writes && s'.log == s.log + [Bought(tid, p.call, p.ids, p.began)]
    requires s'.procs == s.procs - {tid} && s'.answers == s.answers[tid := Answer(p.call, reply)]
    requires reply == FinalReply(p) || reply == Refused(Fault)
    ensures Serial(s')
  {
    var e := Bought(tid, p.call, p.ids, p.began);
    ReplayAppends(s.log, e);
    FinishedRunsAlone(s, tid, p);
    forall i | 0 <= i < |s'.log| && s'.log[i].Bought?
      ensures Answered(s', i)
    {
      if i < |s.log| {
        assert s'.log[i] == s.log[i] && s'.log[..i] == s.log[..i];
        assert Answered(s, i);
      } else {
        assert s'.log[..i] == s.log;
      }
    }
    forall i, j | 0 <= i < j < |s'.log| && s'.log[i].Bought? && s'.log[j].Bought?
      ensures s'.log[i].tid != s'.log[j].tid
    {
      assert s'.log[i] == s.log[i] && Answered(s, i);
      assert j < |s.log| ==> s'.log[j] == s.log[j];
    }
    forall t | t in s'.answers && Successful(s'.answers[t].reply)
      ensures exists i :: 0 <= i < |s'.log| && s'.log[i].Bought? && s'.log[i].tid == t
    {
      if t == tid {
        assert s'.log[|s.log|] == e;
      } else {
        var i :| 0 <= i < |s.log| && s.log[i].Bought? && s.log[i].tid == t;
        assert s'.log[i] == s.log[i];
      }
    }
  }

  lemma AdvanceSerial(s: State, s': State, tid: int, p: Buyer, heard: bool)
    requires Core(s) && Serial(s)
    requires tid in s.procs && s.procs[tid] == Buying(p)
    requires AdvanceBuyer(s, tid, p, heard) == Some(s')
    ensures Serial(s')
  {
    assert BuyerInv(s.db, p);
    OnlyReadyCommits(s.db, SequenceIds(s.seqs), p);
    if Ready(p) {
      LogsCall(s, s', tid, p, if heard then FinalReply(p) else Refused(Fault));
    } else {
      UnreadyTraceless(s, s', tid, p, heard);
      NoTrace(s, s');
    }
  }

  lemma UnreadyTraceless(s: State, s': State, tid: int, p: Buyer, heard: bool)
    requires s.procs.Keys !! s.answers.Keys && tid in s.procs && s.procs[tid] == Buying(p)
    requires AdvanceBuyer(s, tid, p, heard) == Some(s') && OnPath(p) && !Ready(p)
    ensures s'.db == s.db && s'.log == s.log
    ensures s'.procs.Keys !! s'.answers.Keys
    ensures forall t :: t in s.answers ==> t in s'.answers && s'.answers[t] == s.answers[t]
    ensures forall t :: t in s'.answers && t !in s.answers ==> !Successful(s'.answers[t].reply)
  {
    OnlyReadyCommits(s.db, SequenceIds(s.seqs), p);
    ReturnsDuplicate(s.db, SequenceIds(s.seqs), p);
  }

  lemma ReturnsDuplicate(t: Tables, ids: Ids, p: Buyer)
    ensures Statement(t, ids, p).Returned? ==> !Successful(Statement(t, ids, p).reply)
  {
  }

  /** `w` before its first statement, on tables that keep the job it claimed. */
  lemma ClaimedAgain(t: Tables, w: W.Worker)
    requires WorkerInv(t, w)
    ensures W.Claim(w.job, JobIn(t, w.job)) ==
            W.Worker(W.Claimed, w.job, w.order, w.vendor, 0, 0, 0, "", 0, 0, 0, 0, false, map[], {})
  {
  }

  /** The reads of a job's handling, made again on the tables it commits to: they find what the
      worker `w` found, whatever has committed since. */
  lemma ReadsAgain(t: Tables, w: W.Worker) returns (q: W.Worker)
    requires WorkerInv(t, w) && w.stage.Joined?
    ensures q.stage.Answered? && q.job == w.job && q.order == w.order && q.writes == map[]
    ensures W.ServiceOf(q) == W.ServiceOf(w)
    ensures W.WorkAlone(t, w.svc, Some(w.expires), W.Claim(w.job, JobIn(t, w.job)), {W.Persisted}, false) ==
            W.WorkAlone(t, w.svc, Some(w.expires), q, {W.Persisted}, false)
  {
    ClaimedAgain(t, w);
    var w0 := W.Claim(w.job, JobIn(t, w.job));
    var w1 := W.WorksOn(t, w.svc, Some(w.expires), w0, {W.Persisted}, false);
    assert w1.user == w.user && w1.catalog == w.catalog;
    var w2 := W.WorksOn(t, w.svc, Some(w.expires), w1, {W.Persisted}, false);
    assert w2.panelVendor == w.vendor;
    var w3 := W.WorksOn(t, w.svc, Some(w.expires), w2, {W.Persisted}, false);
    q := W.WorksOn(t, w.svc, Some(w.expires), w3, {W.Persisted}, false);
  }

  /** The whole handling of a job, from its first statement, commits what the worker `w` commits. */
  lemma HandlesAloneTo(t: Tables, w: W.Worker)
    requires WorkerInv(t, w) && w.stage.Joined?
    ensures Handle(t, w.job, w.svc, w.expires) == t + w.writes
  {
    var q := ReadsAgain(t, w);
    var inserted := W.WorksOn(t, w.svc, Some(w.expires), q, {W.Persisted}, false);
    assert HasOrder(t + inserted.writes, w.order);
    assert OrderIn(t + inserted.writes, w.order) == OrderIn(t, w.order);
    var joined := W.WorksOn(t, w.svc, Some(w.expires), inserted, {W.Persisted}, false);
    assert joined.writes == w.writes;
  }

  lemma WorkSerial(s: State, s': State, tid: int, w: W.Worker, answer: Option<int>, heard: bool)
    requires Core(s) && Serial(s) && tid in s.procs && s.procs[tid] == Working(w)
    requires AdvanceWorker(s, tid, w, answer, heard) == Some(s')
    ensures Serial(s')
  {
    assert ProcInv(s.db, s.procs[tid]);
    var out := W.WorkStatement(s.db, s.seqs.service, answer, w);
    match out
    case Onward(_) => NoTrace(s, s');
    case Durable(_) =>
      HandlesAloneTo(s.db, w);
      LogsOther(s, s', Handled(w.job, w.svc, w.expires));
    case Finished(writes) => LogsOther(s, s', Wrote(writes));
  }

  /** The steps that neither write nor finish a call successfully. */
  predicate IsTraceless(l: Label) {
    l.Submit? || l.Disrupt? || l.Crash? || l.ReadService? || l.Tick?
  }

  lemma TracelessStep(s: State, l: Label, s': State)
    requires s.procs.Keys !! s.answers.Keys
    requires Next(s, l) == Some(s') && IsTraceless(l)
    ensures s'.db == s.db && s'.log == s.log
    ensures s'.procs.Keys !! s'.answers.Keys
    ensures forall tid :: tid in s.answers ==> tid in s'.answers && s'.answers[tid] == s.answers[tid]
    ensures forall tid :: tid in s'.answers && tid !in s.answers ==> !Successful(s'.answers[tid].reply)
  {
  }

  /** The others, but for a call's or a worker's next statement, are one autocommitted write. */
  lemma WritingStep(s: State, l: Label, s': State)
    requires s.procs.Keys !! s.answers.Keys
    requires Next(s, l) == Some(s') && !IsTraceless(l) && !l.Advance? && !l.Work?
    ensures exists w :: s'.db == s.db + w && s'.log == s.log + [Wrote(w)]
    ensures s'.answers == s.answers && s'.procs.Keys !! s'.answers.Keys
  {
  }

  lemma NextSerial(s: State, l: Label, s': State)
    requires Core(s) && Serial(s)
    requires Next(s, l) == Some(s')
    ensures Serial(s')
  {
    if l.Advance? {
      AdvanceSerial(s, s', l.tid, s.procs[l.tid].buyer, l.heard);
    } else if l.Work? {
      WorkSerial(s, s', l.tid, s.procs[l.tid].worker, l.answer, l.heard);
    } else if IsTraceless(l) {
      TracelessStep(s, l, s');
      NoTrace(s, s');
    } else {
      WritingStep(s, l, s');
      var w :| s'.db == s.db + w && s'.log == s.log + [Wrote(w)];
      LogsOther(s, s', Wrote(w));
    }
  }

  lemma {:induction false} RunSerial(s: State, ls: seq<Label>, s': State)
    requires Core(s) && Serial(s)
    requires Run(s, ls) == Some(s')
    ensures Core(s') && Serial(s')
    decreases |ls|
  {
    if ls != [] {
      var mid := Next(s, ls[0]).value;
      NextKeepsCore(s, ls[0], mid);
      NextSerial(s, ls[0], mid);
      RunSerial(mid, ls[1..], s');
    }
  }

  /** Interleaving refines serial execution: in every reachable state the committed tables are
      those of the committed calls and job handlings run alone, one after the other in commit order
      with the single statements of the other processes; every successful answer is the one its
      call gives there, and a committed call without such an answer was answered by a fault, when
      its commit succeeded but its acknowledgement was lost. */
  lemma InterleavingIsSerial(s: State)
    requires Reachable(s)
    ensures s.db == Replay(s.log)
    ensures Faithful(s)
  {
    var ls :| Run(INITIAL, ls) == Some(s);
    InitialCore();
    RunSerial(INITIAL, ls, s);
  }

  lemma SameCall(t: Tables, ids: Ids, q: Buyer)
    requires Statement(t, ids, q).Continue?
    ensures Statement(t, ids, q).next.call == q.call && Statement(t, ids, q).next.began == q.began
  {
  }

  lemma CommitsSuccess(t: Tables, ids: Ids, p: Buyer)
    ensures Statement(t, ids, p).Committed? ==> Successful(Statement(t, ids, p).reply)
  {
  }
}
