/** The database as the services see it: one statement after another, with nothing else
    running. Any statement may fail for a reason outside the model. */
module Store {
  import opened Schema
  import opened Calls

  /** What a query yields. */
  datatype Fetch<+T> = Found(value: T) | Err(error: Error)

  function Count(b: bool): nat {
    if b then 1 else 0
  }

  class Database {
    var rows: Tables
    var seqs: Seqs
    var clock: int
    ghost var mishaps: nat    // the statements so far that failed or went unheard

    constructor ()
      ensures rows == map[] && seqs == FIRST_IDS
    {
      rows := map[];
      seqs := FIRST_IDS;
      clock := 0;
      mishaps := 0;
    }

    /** Whether a statement fails for a reason outside the model. */
    method Fails() returns (fails: bool)
      modifies this`mishaps
      ensures mishaps == old(mishaps) + Count(fails)
    {
      fails := *;
      mishaps := mishaps + Count(fails);
    }

    /** An autocommitted write. It may take effect and still report an error, when only its
        acknowledgement is lost; `took` says whether it did. */
    method Exec(writes: Tables) returns (err: Option<Error>, ghost took: bool)
      modifies this`rows, this`mishaps
      ensures err == None || err == Some(Fault)
      ensures err == None ==> took
      ensures mishaps == old(mishaps) + Count(err.Some?)
      ensures rows == if took then old(rows) + writes else old(rows)
    {
      var fails := Fails();
      var unheard: bool := *;
      if !fails || unheard {
        rows := rows + writes;
      }
      return if fails then Some(Fault) else None, !fails || unheard;
    }
  }

  /** A transaction: its writes lie over the committed rows for its own statements only. */
  class Tx {
    const db: Database
    const began: int
    var writes: Tables

    constructor (db: Database)
      ensures this.db == db && began == db.clock && writes == map[]
    {
      this.db := db;
      began := db.clock;
      writes := map[];
    }

    function View(): Tables
      reads this, db`rows
    {
      db.rows + writes
    }

    method Commit() returns (err: Option<Error>, ghost took: bool)
      modifies db`rows, db`mishaps
      ensures err == None || err == Some(Fault)
      ensures err == None ==> took
      ensures db.mishaps == old(db.mishaps) + Count(err.Some?)
      ensures db.rows == if took then old(db.rows) + writes else old(db.rows)
    {
      err, took := db.Exec(writes);
    }

    method Rollback()
      modifies this
      ensures writes == map[]
    {
      writes := map[];
    }
  }
}
