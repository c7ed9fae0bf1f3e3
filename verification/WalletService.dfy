/** The wallet's other writers: top-ups, and the wallet a registration opens. */
module WalletService {
  import opened Schema
  import opened Calls
  import opened Store
  import opened Repositories
  import opened Sequential
  import Q = Repository

  class WalletRepository {
    const db: Database

    constructor (db: Database)
      ensures this.db == db
    {
      this.db := db;
    }

    /** UNIQUE(user_id, vendor_id) cannot conflict, since vendor_id is null: a row is inserted
        whether or not the user has a wallet. */
    method EnsureForUser(userId: int) returns (err: Option<Error>, ghost took: bool)
      modifies db`rows, db`seqs, db`mishaps
      ensures err == None || err == Some(Fault)
      ensures err == None ==> took
      ensures db.mishaps == old(db.mishaps) + Count(err == Some(Fault))
      ensures db.seqs == old(db.seqs).(wallet := old(db.seqs.wallet) + 1)
      ensures db.rows ==
              if took then old(db.rows) + map[WalletAt(old(db.seqs.wallet)) := WalletRow(Wallet(userId, 0))]
              else old(db.rows)
    {
      var id := db.seqs.wallet;
      db.seqs := db.seqs.(wallet := id + 1);
      err, took := db.Exec(map[WalletAt(id) := WalletRow(Wallet(userId, 0))]);
    }

    method ApplyTransaction(userId: int, amount: int) returns (reply: Reply, ghost faults: set<Pc>)
      requires IsInt64(amount)
      modifies db`rows, db`seqs, db`mishaps
      ensures Ended(old(db.rows), old(db.seqs), Begin(TopUp(userId, amount), db.clock), faults, db.rows, db.seqs, reply)
      ensures db.mishaps == old(db.mishaps) + Count(reply == Refused(Fault))
      ensures reply != Refused(Fault) ==> faults == {}
    {
      ghost var t, a, ids := db.rows, db.seqs, SequenceIds(db.seqs);
      ghost var p := Begin(TopUp(userId, amount), db.clock);
      ghost var q := p;
      assert Reaches(t, ids, p, a, p, a);
      var tx := new Tx(db);
      var fails := db.Fails();
      if fails {
        Faulted(t, p, a, q, a);
        return Refused(Fault), {q.pc};
      }
      var row := Q.WalletOf(db.rows, userId);
      if row.None? {
        RefusesDeposit(t, p, a, q, NoRows);
        return Refused(NoRows), {};
      }
      var w := row.value;
      q := ReachWallet(t, ids, p, a, q, a, w);
      var err;
      err, q, faults := Credit(tx, userId, w, amount, p, q);
      if err.Some? {
        tx.Rollback();
        return Refused(err.value), faults;
      }
      reply, faults := Finish(tx, p, a, q);
    }

    /** Its two writes: the new balance, and a ledger row. */
    method Credit(tx: Tx, userId: int, w: int, amount: int, ghost p: Buyer, ghost q0: Buyer)
      returns (err: Option<Error>, ghost q: Buyer, ghost faults: set<Pc>)
      requires tx.db == db && tx.writes == map[] && HasWallet(db.rows, w)
      requires Reaches(db.rows, SequenceIds(db.seqs), p, db.seqs, q0, db.seqs)
      requires q0.pc.WalletLocked? && q0.wallet == w && q0.writes == map[] && q0.call == TopUp(userId, amount)
      modifies tx, db`seqs, db`mishaps
      ensures db.mishaps == old(db.mishaps) + Count(err == Some(Fault))
      ensures err != Some(Fault) ==> faults == {}
      ensures err.Some? ==> Ran(db.rows, old(db.seqs), p, faults, db.rows, db.seqs, Refused(err.value))
      ensures err == None ==>
                && Reaches(db.rows, SequenceIds(old(db.seqs)), p, old(db.seqs), q, db.seqs)
                && q.pc.Logged? && q.call.TopUp? && tx.writes == q.writes
    {
      ghost var t, a, ids := db.rows, db.seqs, SequenceIds(db.seqs);
      q, faults := q0, {};
      var fails := db.Fails();
      if fails {
        Faulted(t, p, a, q, a);
        return Some(Fault), q, {q.pc};
      }
      var balance := WalletIn(db.rows, w).balance + amount;
      if !IsInt64(balance) {
        RefusesDeposit(t, p, a, q, OutOfRange);
        return Some(OutOfRange), q, {};
      }
      tx.writes := tx.writes[WalletAt(w) := WalletRow(WalletIn(db.rows, w).(balance := balance))];
      q := ReachUpdate(t, ids, p, a, q, a);
      var id := db.seqs.ledger;
      db.seqs := db.seqs.(ledger := id + 1);
      fails := db.Fails();
      if fails {
        Faulted(t, p, a, q, a);
        return Some(Fault), q, {q.pc};
      }
      tx.writes := tx.writes[LedgerAt(id) := LedgerRow(LedgerEntry(w, userId, amount, AdminTopup))];
      q := ReachLedger(t, ids, p, a, q, a);
      err := None;
    }

    /** Its commit. */
    method Finish(tx: Tx, ghost p: Buyer, ghost a: Seqs, ghost q: Buyer) returns (reply: Reply, ghost faults: set<Pc>)
      requires tx.db == db && tx.writes == q.writes
      requires Reaches(db.rows, SequenceIds(a), p, a, q, db.seqs)
      requires q.pc.Logged? && q.call.TopUp?
      modifies tx, db`rows, db`mishaps
      ensures Ended(old(db.rows), a, p, faults, db.rows, db.seqs, reply)
      ensures db.mishaps == old(db.mishaps) + Count(reply == Refused(Fault))
      ensures reply != Refused(Fault) ==> faults == {}
    {
      CommitsDeposit(db.rows, p, a, q, db.seqs);
      Faulted(db.rows, p, a, q, db.seqs);
      assert Draw(db.seqs, q) == db.seqs;
      var err;
      ghost var took;
      err, took := tx.Commit();
      EndsByCommit(old(db.rows), a, p, q.pc, q.writes, db.seqs, Applied, took, err.None?);
      if err.Some? {
        tx.Rollback();
        return Refused(Fault), if took then {} else {q.pc};
      }
      return Applied, {};
    }
  }

  class Auth {
    const db: Database
    const users: UserRepository
    const wallets: WalletRepository

    constructor (db: Database)
      ensures Valid() && this.db == db
    {
      this.db := db;
      users := new UserRepository(db);
      wallets := new WalletRepository(db);
    }

    ghost predicate Valid() {
      users.db == db && wallets.db == db
    }

    /** Two autocommitted inserts: a failure between them leaves a user without a wallet.
        `created` and `furnished` say which of them took effect. */
    method Register(email: string) returns (err: Option<Error>, ghost created: bool, ghost furnished: bool)
      requires Valid()
      modifies db`rows, db`seqs, db`mishaps
      ensures err == None || err == Some(Fault) || (err == Some(DuplicateKey) && !created)
      ensures db.mishaps == old(db.mishaps) + Count(err == Some(Fault))
      ensures err == None ==> created && furnished
      ensures err == Some(DuplicateKey) ==> UserRow(email) in old(db.rows).Values
      ensures created ==> UserRow(email) !in old(db.rows).Values
      ensures furnished ==> created
      ensures var u, w := old(db.seqs.user), old(db.seqs.wallet);
              && db.rows == old(db.rows) + (if created then map[UserAt(u) := UserRow(email)] else map[]) +
                            (if furnished then map[WalletAt(w) := WalletRow(Wallet(u, 0))] else map[])
              && (db.seqs == old(db.seqs) || db.seqs == old(db.seqs).(user := u + 1) ||
                  db.seqs == old(db.seqs).(user := u + 1, wallet := w + 1))
              && (furnished ==> db.seqs == old(db.seqs).(user := u + 1, wallet := w + 1))
              && (created ==> db.seqs.user == u + 1)
    {
      created, furnished := false, false;
      var fails := db.Fails();    // hashing the password
      if fails {
        return Some(Fault), created, furnished;
      }
      var id;
      id, created := users.Create(email);
      if id.Err? {
        return Some(id.error), created, furnished;
      }
      err, furnished := wallets.EnsureForUser(id.value);
    }
  }
}
