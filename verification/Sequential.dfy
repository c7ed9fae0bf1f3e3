/** How far a call that runs alone has come, statement by statement. */
module Sequential {
  import opened Schema
  import opened Repository
  import opened Calls

  /** Statements that all succeed lead from `p`, with the sequences at `a`, to `q` and `b`. */
  ghost predicate Reaches(t: Tables, ids: Ids, p: Buyer, a: Seqs, q: Buyer, b: Seqs)
    decreases 12 - Rank(p.pc)
  {
    || (p == q && a == b)
    || (Statement(t, ids, p).Continue? && Reaches(t, ids, Statement(t, ids, p).next, Draw(a, p), q, b))
  }

  lemma {:induction false} ReachStep(t: Tables, ids: Ids, p: Buyer, a: Seqs, q: Buyer, b: Seqs, r: Buyer)
    requires Reaches(t, ids, p, a, q, b)
    requires Statement(t, ids, q) == Continue(r)
    ensures Reaches(t, ids, p, a, r, Draw(b, q))
    decreases 12 - Rank(p.pc)
  {
    if p == q && a == b {
      assert Reaches(t, ids, r, Draw(b, q), r, Draw(b, q));
    } else {
      ReachStep(t, ids, Statement(t, ids, p).next, Draw(a, p), q, b, r);
    }
  }

  lemma {:induction false} ReachTrans(t: Tables, ids: Ids, p: Buyer, a: Seqs, q: Buyer, b: Seqs, r: Buyer, c: Seqs)
    requires Reaches(t, ids, p, a, q, b)
    requires Reaches(t, ids, q, b, r, c)
    ensures Reaches(t, ids, p, a, r, c)
    decreases 12 - Rank(p.pc)
  {
    if !(p == q && a == b) {
      ReachTrans(t, ids, Statement(t, ids, p).next, Draw(a, p), q, b, r, c);
    }
  }

  lemma {:induction false} ReachRank(t: Tables, ids: Ids, p: Buyer, a: Seqs, q: Buyer, b: Seqs)
    requires Reaches(t, ids, p, a, q, b)
    ensures (p == q && a == b) || Rank(p.pc) < Rank(q.pc)
    decreases 12 - Rank(p.pc)
  {
    if !(p == q && a == b) {
      ReachRank(t, ids, Statement(t, ids, p).next, Draw(a, p), q, b);
    }
  }

  /** From there the call ends as it does from the start, if no earlier statement failed. */
  lemma {:induction false} EndsAlike(t: Tables, ids: Ids, p: Buyer, a: Seqs, q: Buyer, b: Seqs, faults: set<Pc>)
    requires Reaches(t, ids, p, a, q, b)
    requires faults <= {q.pc}
    ensures Solo(t, ids, p, faults) == Solo(t, ids, q, faults)
    ensures Drawn(t, ids, p, faults, a) == Drawn(t, ids, q, faults, b)
    decreases 12 - Rank(p.pc)
  {
    if !(p == q && a == b) {
      ReachRank(t, ids, p, a, q, b);
      EndsAlike(t, ids, Statement(t, ids, p).next, Draw(a, p), q, b, faults);
    }
  }

  /** From tables `t` and sequences `a`, the call `p` run alone leaves `u` and `b` and replies
      `reply`; the statements in `faults` failed for reasons outside the model. */
  ghost predicate Ran(t: Tables, a: Seqs, p: Buyer, faults: set<Pc>, u: Tables, b: Seqs, reply: Reply) {
    && Solo(t, SequenceIds(a), p, faults) == Result(u, reply)
    && Drawn(t, SequenceIds(a), p, faults, a) == b
  }

  /** The call ran alone to this end; or it ran without faults and committed, but heard a fault in
      place of the acknowledgement. */
  ghost predicate Ended(t: Tables, a: Seqs, p: Buyer, faults: set<Pc>, u: Tables, b: Seqs, reply: Reply) {
    || Ran(t, a, p, faults, u, b, reply)
    || (reply == Refused(Fault) && exists r :: Successful(r) && Ran(t, a, p, {}, u, b, r))
  }

  /** A commit that takes effect, or not, and is heard of, or not. */
  lemma EndsByCommit(t: Tables, a: Seqs, p: Buyer, at: Pc, writes: Tables, b: Seqs, r: Reply, took: bool, heard: bool)
    requires Successful(r) && Ran(t, a, p, {}, t + writes, b, r)
    requires Ran(t, a, p, {at}, t, b, Refused(Fault))
    requires heard ==> took
    ensures Ended(t, a, p, if took then {} else {at}, if took then t + writes else t, b,
                  if heard then r else Refused(Fault))
  {
  }

  /** The call ends here, because its next statement fails for a reason outside the model. */
  lemma Faulted(t: Tables, p: Buyer, a: Seqs, q: Buyer, b: Seqs)
    requires Reaches(t, SequenceIds(a), p, a, q, b)
    ensures Ran(t, a, p, {q.pc}, t, Draw(b, q), Refused(Fault))
  {
    EndsAlike(t, SequenceIds(a), p, a, q, b, {q.pc});
  }

  /** The call ends here, by the outcome of a statement that does not write. */
  lemma Stops(t: Tables, p: Buyer, a: Seqs, q: Buyer, b: Seqs, reply: Reply)
    requires Reaches(t, SequenceIds(a), p, a, q, b)
    requires Statement(t, SequenceIds(a), q) == Returned(reply) ||
             (reply.Refused? && Statement(t, SequenceIds(a), q) == Failed(reply.error))
    ensures Ran(t, a, p, {}, t, b, reply)
  {
    EndsAlike(t, SequenceIds(a), p, a, q, b, {});
  }

  /** The call commits. */
  lemma Commits(t: Tables, p: Buyer, a: Seqs, q: Buyer, b: Seqs)
    requires Reaches(t, SequenceIds(a), p, a, q, b)
    requires (q.pc.Queued? && !q.call.Renew?) || q.pc.Extended?
    ensures Ran(t, a, p, {}, t + q.writes, b, Placed(q.ids.order, StateApproved, StatePending, false))
  {
    EndsAlike(t, SequenceIds(a), p, a, q, b, {});
  }

  /** Both ways in which an error ends a call. */
  lemma Refuses(t: Tables, p: Buyer, a: Seqs, q: Buyer, b: Seqs, e: Error)
    requires Reaches(t, SequenceIds(a), p, a, q, b)
    requires e != Fault ==> Statement(t, SequenceIds(a), q) == Failed(e)
    ensures Ran(t, a, p, FaultAt(q, e), t, if e == Fault then Draw(b, q) else b, Refused(e))
  {
    EndsAlike(t, SequenceIds(a), p, a, q, b, FaultAt(q, e));
  }

  /** The insert of a key that is already there. */
  lemma RefusesReserve(t: Tables, p: Buyer, a: Seqs, q: Buyer, e: Error)
    requires Reaches(t, SequenceIds(a), p, a, q, a)
    requires q.pc.Priced?
    requires e == Fault || (e == DuplicateKey && KeyOf(q) in t + q.writes)
    ensures Ran(t, a, p, FaultAt(q, e), t, a, Refused(e))
  {
    Refuses(t, p, a, q, a, e);
  }

  /** The statement that failed for a reason outside the model, if `e` says that one did. */
  ghost function FaultAt(q: Buyer, e: Error): set<Pc> {
    if e == Fault then {q.pc} else {}
  }

  lemma ReachReserve(t: Tables, ids: Ids, p: Buyer, a: Seqs, q: Buyer, b: Seqs) returns (r: Buyer)
    requires Reaches(t, ids, p, a, q, b)
    requires q.pc.Priced? && KeyOf(q) !in t + q.writes
    ensures Reaches(t, ids, p, a, r, b)
    ensures r == q.(pc := Reserved, writes := q.writes[KeyOf(q) := KeyRow(None)], locks := r.locks)
  {
    r := ReserveKey(t + q.writes, q).next;
    ReachStep(t, ids, p, a, q, b, r);
  }

  lemma ReachOrder(t: Tables, ids: Ids, p: Buyer, a: Seqs, q: Buyer, b: Seqs) returns (r: Buyer)
    requires Reaches(t, ids, p, a, q, b)
    requires q.pc.Logged? && !q.call.TopUp?
    ensures Reaches(t, ids, p, a, r, b.(order := b.order + 1))
    ensures r == q.(pc := Ordered, ids := q.ids.(order := ids.order),
                    writes := q.writes[OrderAt(ids.order) := OrderRow(OrderOf(q))], locks := r.locks)
  {
    r := InsertOrder(ids, q).next;
    ReachStep(t, ids, p, a, q, b, r);
  }

  lemma ReachLink(t: Tables, ids: Ids, p: Buyer, a: Seqs, q: Buyer, b: Seqs) returns (r: Buyer)
    requires Reaches(t, ids, p, a, q, b)
    requires q.pc.Ordered?
    ensures Reaches(t, ids, p, a, r, b)
    ensures r == q.(pc := Linked,
                    writes := if KeyOf(q) !in t + q.writes then q.writes
                              else q.writes[KeyOf(q) := KeyRow(Some(q.ids.order))])
  {
    r := LinkKey(t + q.writes, q).next;
    ReachStep(t, ids, p, a, q, b, r);
  }

  lemma ReachEnqueue(t: Tables, ids: Ids, p: Buyer, a: Seqs, q: Buyer, b: Seqs) returns (r: Buyer)
    requires Reaches(t, ids, p, a, q, b)
    requires q.pc.Linked?
    ensures Reaches(t, ids, p, a, r, b.(job := b.job + 1))
    ensures r == q.(pc := Queued, ids := q.ids.(job := ids.job),
                    writes := q.writes[JobAt(ids.job) := JobRow(Job(q.vendor, q.ids.order, JobPending, 0, false))],
                    locks := r.locks)
  {
    r := EnqueueJob(ids, q).next;
    ReachStep(t, ids, p, a, q, b, r);
  }

  lemma ReachExtend(t: Tables, ids: Ids, p: Buyer, a: Seqs, q: Buyer, b: Seqs) returns (r: Buyer)
    requires Reaches(t, ids, p, a, q, b)
    requires q.pc.Queued? && q.call.Renew?
    ensures Reaches(t, ids, p, a, r, b)
    ensures var view := t + q.writes;
            var sid := q.call.serviceId;
            r == q.(pc := Extended,
                    writes := if HasService(view, sid) then
                                var row := ServiceIn(view, sid);
                                var from := if row.expiresAt.None? || row.expiresAt.value < q.began then q.began
                                            else row.expiresAt.value;
                                q.writes[ServiceAt(sid) :=
                                           ServiceRow(row.(expiresAt := Some(from + q.days * 86_400)))]
                              else q.writes)
  {
    r := ExtendExpiry(t + q.writes, q).next;
    ReachStep(t, ids, p, a, q, b, r);
  }

  /** A lookup that goes on. */
  lemma ReachLookup(t: Tables, ids: Ids, p: Buyer, a: Seqs, q: Buyer, b: Seqs) returns (r: Buyer)
    requires Reaches(t, ids, p, a, q, b)
    requires Rank(q.pc) < 3 && Lookup(t, q).Continue?
    ensures r == Lookup(t, q).next
    ensures Reaches(t, ids, p, a, r, b)
  {
    r := Lookup(t, q).next;
    ReachStep(t, ids, p, a, q, b, r);
  }

  /** Renew's locked read of the service. */
  lemma ReachService(t: Tables, ids: Ids, p: Buyer, a: Seqs, q: Buyer, b: Seqs, row: Service) returns (r: Buyer)
    requires Reaches(t, ids, p, a, q, b)
    requires q.pc.Start? && q.call.Renew? && row.orderId.Some?
    requires ServiceForUser(t, q.call.serviceId, q.call.userId) == Some(row)
    ensures Reaches(t, ids, p, a, r, b)
    ensures r == q.(pc := ServiceRead, vendor := row.vendorId, ref := row.orderId.value, days := row.days,
                    locks := r.locks)
  {
    r := Lookup(t, q).next;
    ReachStep(t, ids, p, a, q, b, r);
  }

  /** Its read of the original order. */
  lemma ReachOriginal(t: Tables, ids: Ids, p: Buyer, a: Seqs, q: Buyer, b: Seqs, o: Order) returns (r: Buyer)
    requires Reaches(t, ids, p, a, q, b)
    requires q.pc.ServiceRead? && OrderById(t, q.vendor, q.ref) == Some(o)
    ensures Reaches(t, ids, p, a, r, b)
    ensures r == q.(pc := OrderRead, catalog := o.catalogId)
  {
    r := Lookup(t, q).next;
    ReachStep(t, ids, p, a, q, b, r);
  }

  /** Its read of the price. */
  lemma ReachPrice(t: Tables, ids: Ids, p: Buyer, a: Seqs, q: Buyer, b: Seqs, item: Item) returns (r: Buyer)
    requires Reaches(t, ids, p, a, q, b)
    requires q.pc.OrderRead? && q.call.Renew? && PriceOf(t, q.vendor, q.catalog) == Some(item)
    ensures Reaches(t, ids, p, a, r, b)
    ensures r == q.(pc := Priced, price := item.price)
  {
    r := Lookup(t, q).next;
    ReachStep(t, ids, p, a, q, b, r);
  }

  /** A top-up's update of the balance. */
  lemma ReachUpdate(t: Tables, ids: Ids, p: Buyer, a: Seqs, q: Buyer, b: Seqs) returns (r: Buyer)
    requires Reaches(t, ids, p, a, q, b)
    requires q.pc.WalletLocked? && q.call.TopUp? && HasWallet(t, q.wallet) && q.writes == map[]
    requires IsInt64(WalletIn(t, q.wallet).balance + q.call.amount)
    ensures Reaches(t, ids, p, a, r, b)
    ensures var row := WalletIn(t, q.wallet);
            r == q.(pc := Debited,
                    writes := map[WalletAt(q.wallet) := WalletRow(row.(balance := row.balance + q.call.amount))])
  {
    assert t + q.writes == t;
    r := UpdateBalance(t + q.writes, q).next;
    ReachStep(t, ids, p, a, q, b, r);
  }

  /** Its ledger row. */
  lemma ReachLedger(t: Tables, ids: Ids, p: Buyer, a: Seqs, q: Buyer, b: Seqs) returns (r: Buyer)
    requires Reaches(t, ids, p, a, q, b)
    requires q.pc.Debited?
    ensures Reaches(t, ids, p, a, r, b.(ledger := b.ledger + 1))
    ensures r == q.(pc := Logged, ids := q.ids.(ledger := ids.ledger), locks := r.locks,
                    writes := q.writes[LedgerAt(ids.ledger) := LedgerRow(EntryOf(q))])
  {
    r := InsertLedger(ids, q).next;
    ReachStep(t, ids, p, a, q, b, r);
  }

  /** Its commit. */
  lemma CommitsDeposit(t: Tables, p: Buyer, a: Seqs, q: Buyer, b: Seqs)
    requires Reaches(t, SequenceIds(a), p, a, q, b)
    requires q.pc.Logged? && q.call.TopUp?
    ensures Ran(t, a, p, {}, t + q.writes, b, Applied)
  {
    EndsAlike(t, SequenceIds(a), p, a, q, b, {});
  }

  /** A top-up's locked read. */
  lemma ReachWallet(t: Tables, ids: Ids, p: Buyer, a: Seqs, q: Buyer, b: Seqs, w: int) returns (r: Buyer)
    requires Reaches(t, ids, p, a, q, b)
    requires q.pc.Start? && q.call.TopUp? && WalletOf(t, q.call.userId) == Some(w)
    ensures Reaches(t, ids, p, a, r, b)
    ensures r == q.(pc := WalletLocked, wallet := w, locks := r.locks)
  {
    r := Lookup(t, q).next;
    ReachStep(t, ids, p, a, q, b, r);
  }

  /** A user without a wallet, or a balance that would leave the int64 range. */
  lemma RefusesDeposit(t: Tables, p: Buyer, a: Seqs, q: Buyer, e: Error)
    requires Reaches(t, SequenceIds(a), p, a, q, a)
    requires q.call.TopUp? && q.writes == map[]
    requires (q.pc.Start? && e == NoRows && WalletOf(t, q.call.userId) == None) ||
             (q.pc.WalletLocked? && e == OutOfRange && HasWallet(t, q.wallet) &&
              !IsInt64(WalletIn(t, q.wallet).balance + q.call.amount))
    ensures Ran(t, a, p, {}, t, a, Refused(e))
  {
    assert t + q.writes == t;
    Stops(t, p, a, q, a, Refused(e));
  }
}
