/** What a transaction may rely on while others commit: the rows and keys it has locked stay
    as they are, committed rows never disappear, and their core columns never change. */
module Isolation {
  import opened Schema
  import opened Repository

  /** `u` may be a later database than `t`, as seen by the holder of `held`. */
  ghost predicate Preserves(t: Tables, u: Tables, held: set<Addr>) {
    && (forall a :: a in t ==> a in u && SameCore(t[a], u[a]))
    && (forall a :: a in held && a in u ==> a in t && u[a] == t[a])
    && (forall w, x :: WalletAt(w) in u && WalletAt(w) !in t && WalletAt(x) in t ==> x < w)
  }

  /** Every row of the write set `w` is held, no core column of a committed row changes, and
      a new wallet has the greatest id. */
  ghost predicate Covered(t: Tables, w: Tables, held: set<Addr>) {
    && w.Keys <= held
    && (forall a :: a in w && a in t ==> SameCore(t[a], w[a]))
    && (forall x, y :: WalletAt(x) in w && WalletAt(x) !in t && WalletAt(y) in t ==> y < x)
  }

  /** A commit is invisible to everyone who holds none of the committer's locks. */
  lemma CommitPreserves(t: Tables, w: Tables, held: set<Addr>, others: set<Addr>)
    requires Covered(t, w, held)
    requires held !! others
    ensures Preserves(t, t + w, others)
  {
  }

  lemma PreservesTrans(t: Tables, u: Tables, v: Tables, held: set<Addr>)
    requires Preserves(t, u, held) && Preserves(u, v, held)
    ensures Preserves(t, v, held)
  {
  }

  /** The wallet a user's reads find stays the same. */
  lemma WalletStays(t: Tables, u: Tables, held: set<Addr>, userId: int)
    requires Preserves(t, u, held)
    requires WalletOf(t, userId).Some?
    ensures WalletOf(u, userId) == WalletOf(t, userId)
  {
    var w := WalletOf(t, userId).value;
    assert WalletAt(w) in u && SameCore(t[WalletAt(w)], u[WalletAt(w)]);
    assert w in WalletsOf(u, userId);
    forall x | x in WalletsOf(u, userId)
      ensures w <= x
    {
      if WalletAt(x) in t {
        assert SameCore(t[WalletAt(x)], u[WalletAt(x)]);
        assert HasWallet(t, x) ==> x in WalletsOf(t, userId);
      }
    }
  }
}
