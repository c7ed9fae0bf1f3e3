/** Runs in which one process at a time is under way. Serial execution is among the engine's runs,
    which shows that its states are reached. */
module SoloRuns {
  import opened Schema
  import opened Calls
  import opened Engine
  import opened Serializable
  import W = Workers

  /** The sequences still hold the ids that the call has yet to draw. */
  predicate Undrawn(q: Seqs, ids: Ids, p: Buyer) {
    && (Rank(p.pc) <= 6 ==> ids.ledger == q.ledger)
    && (Rank(p.pc) <= 7 ==> ids.order == q.order)
    && (Rank(p.pc) <= 9 ==> ids.job == q.job)
  }

  lemma StaysUndrawn(t: Tables, q: Seqs, ids: Ids, p: Buyer)
    requires Undrawn(q, ids, p)
    ensures Statement(t, SequenceIds(q), p) == Statement(t, ids, p)
    ensures Statement(t, ids, p).Continue? ==> Undrawn(Draw(q, p), ids, Statement(t, ids, p).next)
  {
  }

  /** What the caller is told of a reply, when a commit may go unheard. */
  function ToldReply(reply: Calls.Reply, heard: bool): Calls.Reply {
    if heard || !Successful(reply) then reply else Refused(Fault)
  }

  /** The call has ended with this reply, and the log has it if it has committed. */
  ghost predicate Ends(s: State, s': State, tid: int, call: Call, reply: Calls.Reply, heard: bool) {
    && s'.procs == map[] && s'.clock == s.clock
    && s'.answers == s.answers[tid := Answer(call, ToldReply(reply, heard))]
    && (if Successful(reply) then
          && |s'.log| == |s.log| + 1 && s'.log[..|s.log|] == s.log
          && s'.log[|s.log|].Bought? && s'.log[|s.log|].tid == tid && s'.log[|s.log|].call == call
        else s'.log == s.log)
  }

  /** Its next statement waits for no one. */
  lemma StepAlone(s: State, tid: int, p: Buyer, heard: bool) returns (l: Label, s': State)
    requires s.procs == map[tid := Buying(p)]
    ensures Next(s, l) == Some(s')
    ensures match Statement(s.db, SequenceIds(s.seqs), p)
            case Continue(next) => s' == s.(procs := map[tid := Buying(next)], seqs := Draw(s.seqs, p))
            case Committed(r) => s'.db == s.db + p.writes && s'.seqs == s.seqs && Ends(s, s', tid, p.call, r, heard)
            case Returned(r) => s'.db == s.db && s'.seqs == s.seqs && Ends(s, s', tid, p.call, r, heard)
            case Failed(e) => s'.db == s.db && s'.seqs == s.seqs && Ends(s, s', tid, p.call, Refused(e), heard)
  {
    l := Advance(tid, heard || !Statement(s.db, SequenceIds(s.seqs), p).Committed?);
    s' := StepPossible(s, tid, p, l.heard);
    CommitsSuccess(s.db, SequenceIds(s.seqs), p);
    ReturnsDuplicate(s.db, SequenceIds(s.seqs), p);
    assert s.procs - {tid} == map[];
    assert map[tid := Buying(p)][tid := Buying(p)] == s.procs;
  }

  lemma StepPossible(s: State, tid: int, p: Buyer, heard: bool) returns (s': State)
    requires s.procs == map[tid := Buying(p)]
    requires heard || Statement(s.db, SequenceIds(s.seqs), p).Committed?
    ensures AdvanceBuyer(s, tid, p, heard) == Some(s')
  {
    assert Locked(s.procs, {tid}) == {};
    s' := AdvanceBuyer(s, tid, p, heard).value;
  }

  /** The rest of a call that no other process runs beside. */
  lemma {:induction false} RestIsRun(s: State, tid: int, p: Buyer, ids: Ids, heard: bool)
    returns (ls: seq<Label>, s': State)
    requires s.procs == map[tid := Buying(p)] && Undrawn(s.seqs, ids, p)
    ensures Run(s, ls) == Some(s')
    ensures var r := Solo(s.db, ids, p, {});
            && s'.db == r.tables && s'.seqs == Drawn(s.db, ids, p, {}, s.seqs)
            && Ends(s, s', tid, p.call, r.reply, heard)
    decreases 12 - Rank(p.pc)
  {
    StaysUndrawn(s.db, s.seqs, ids, p);
    var l, mid := StepAlone(s, tid, p, heard);
    if Statement(s.db, ids, p).Continue? {
      var next := Statement(s.db, ids, p).next;
      SameCall(s.db, ids, p);
      var rest;
      rest, s' := RestIsRun(mid, tid, next, ids, heard);
      ls := [l] + rest;
      assert ls[1..] == rest;
    } else {
      ls, s' := [l], mid;
      assert Run(s', []) == Some(s');
    }
  }

  /** Serial execution is a run: where nothing else is under way a call can be submitted and stepped
      to its end, which is the one it has alone, whether or not its commit is heard. */
  lemma AloneIsRun(s: State, tid: int, call: Call, heard: bool) returns (ls: seq<Label>, s': State)
    requires s.procs == map[] && tid !in s.answers
    requires call.TopUp? ==> IsInt64(call.amount)
    ensures Run(s, ls) == Some(s')
    ensures var r := RunAlone(s.db, SequenceIds(s.seqs), call, s.clock, {});
            && s'.db == r.tables && s'.seqs == Drawn(s.db, SequenceIds(s.seqs), Begin(call, s.clock), {}, s.seqs)
            && Ends(s, s', tid, call, r.reply, heard)
  {
    var l := Submit(tid, call);
    var mid := Next(s, l).value;
    var rest;
    rest, s' := RestIsRun(mid, tid, Begin(call, s.clock), SequenceIds(s.seqs), heard);
    ls := [l] + rest;
    assert ls[1..] == rest;
  }

  /** The statement at which a worker's commit goes unheard, if `lost` says that it does. */
  function Faults(lost: bool): set<W.Stage> {
    if lost then {W.Joined} else {}
  }

  /** A worker's next statement waits for no one. */
  lemma WorkStepAlone(s: State, tid: int, w: W.Worker, answer: Option<int>, lost: bool)
    returns (l: Label, s': State)
    requires s.procs == map[tid := Working(w)]
    ensures Next(s, l) == Some(s') && s'.answers == s.answers
    ensures s'.seqs.service == if w.stage.Answered? then s.seqs.service + 1 else s.seqs.service
    ensures match W.WorkStatement(s.db, s.seqs.service, answer, w)
            case Onward(next) => s'.db == s.db && s'.procs == map[tid := Working(next)]
            case Durable(next) =>
              && s'.db == s.db + w.writes
              && s'.procs == map[tid := Working(if lost then W.Abandon(w) else next)]
            case Finished(writes) => s'.db == s.db + writes && s'.procs == map[]
  {
    l := Work(tid, answer, !(lost && w.stage.Joined?));
    s' := WorkStepPossible(s, tid, w, answer, l.heard);
    assert s.procs - {tid} == map[];
  }

  lemma WorkStepPossible(s: State, tid: int, w: W.Worker, answer: Option<int>, heard: bool) returns (s': State)
    requires s.procs == map[tid := Working(w)] && (heard || w.stage.Joined?)
    ensures AdvanceWorker(s, tid, w, answer, heard) == Some(s')
  {
    assert Locked(s.procs, {tid}) == {};
    s' := AdvanceWorker(s, tid, w, answer, heard).value;
  }

  /** And so is a job's handling by a worker that nothing runs beside: stepped to its end, it leaves
      the tables that it leaves alone, whether or not its commit is heard. */
  lemma {:induction false} WorkIsRun(s: State, tid: int, w: W.Worker, n: int, answer: Option<int>, lost: bool)
    returns (ls: seq<Label>, s': State)
    requires s.procs == map[tid := Working(w)]
    requires W.StageRank(w.stage) <= W.StageRank(W.Answered) ==> n == s.seqs.service
    ensures Run(s, ls) == Some(s')
    ensures s'.db == W.WorkAlone(s.db, n, answer, w, Faults(lost), lost)
    ensures s'.procs == map[] && s'.answers == s.answers
    decreases 10 - W.StageRank(w.stage)
  {
    W.StagesRise(s.db, n, answer, w);
    assert W.WorkStatement(s.db, s.seqs.service, answer, w) == W.WorkStatement(s.db, n, answer, w);
    var l, mid := WorkStepAlone(s, tid, w, answer, lost);
    var rest := [];
    if W.WorkStatement(s.db, n, answer, w).Finished? {
      s' := mid;
      assert Run(mid, []) == Some(mid);
    } else {
      rest, s' := WorkIsRun(mid, tid, mid.procs[tid].worker, n, answer, lost);
    }
    ls := [l] + rest;
    assert ls[1..] == rest;
  }

  lemma {:induction false} RunOn(s: State, first: seq<Label>, mid: State, rest: seq<Label>)
    requires Run(s, first) == Some(mid)
    ensures Run(s, first + rest) == Run(mid, rest)
    decreases |first|
  {
    if first == [] {
      assert first + rest == rest;
    } else {
      assert (first + rest)[1..] == first[1..] + rest;
      RunOn(Next(s, first[0]).value, first[1..], mid, rest);
    }
  }

  lemma StaysReachable(s: State, ls: seq<Label>, s': State)
    requires Reachable(s) && Run(s, ls) == Some(s')
    ensures Reachable(s')
  {
    var first :| Run(INITIAL, first) == Some(s);
    RunOn(INITIAL, first, s, ls);
  }
}
