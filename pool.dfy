/**
  The node's mempool (core/mempool.go): a FIFO sequence of pending
  transactions. The lock is left out; slices are values here.
*/
module Pool {
  import opened Crypto
  import opened Core

  /** The identifiers of a list of transactions. */
  function IdSet(sha: Sha256, txs: seq<Transaction>): set<string>
  {
    set i | 0 <= i < |txs| :: ID(sha, txs[i])
  }

  /** The entries of s, in order, whose identifier is not in ids. */
  function Filtered(sha: Sha256, s: seq<Transaction>, ids: set<string>): seq<Transaction>
    decreases |s|
  {
    if s == [] then []
    else
      var last := s[|s| - 1];
      Filtered(sha, s[..|s| - 1], ids) + (if ID(sha, last) in ids then [] else [last])
  }

  lemma IdSetStep(sha: Sha256, txs: seq<Transaction>, i: nat)
    requires i < |txs|
    ensures IdSet(sha, txs[..i + 1]) == IdSet(sha, txs[..i]) + {ID(sha, txs[i])}
  {
    var next := txs[..i + 1];
    assert forall k :: 0 <= k < i ==> next[k] == txs[..i][k];
    assert next[i] == txs[i];
  }

  lemma FilteredStep(sha: Sha256, s: seq<Transaction>, ids: set<string>, j: nat)
    requires j < |s|
    ensures Filtered(sha, s[..j + 1], ids) == Filtered(sha, s[..j], ids) + (if ID(sha, s[j]) in ids then [] else [s[j]])
  {
    assert s[..j + 1][..j] == s[..j];
  }

  /** One unfolding of Filtered at the last entry. */
  lemma FilteredLast(sha: Sha256, s: seq<Transaction>, ids: set<string>)
    requires s != []
    ensures Filtered(sha, s, ids) == Filtered(sha, s[..|s| - 1], ids) + Filtered(sha, [s[|s| - 1]], ids)
  {
    var one := [s[|s| - 1]];
    assert one[..0] == [];
  }

  /** Filtering distributes over concatenation, so relative order is kept. */
  lemma {:induction false} FilteredAppend(sha: Sha256, a: seq<Transaction>, b: seq<Transaction>, ids: set<string>)
    ensures Filtered(sha, a + b, ids) == Filtered(sha, a, ids) + Filtered(sha, b, ids)
    decreases |b|
  {
    if b == [] {
      assert a + b == a;
    } else {
      var ab, init := a + b, b[..|b| - 1];
      var last := [b[|b| - 1]];
      assert ab[..|ab| - 1] == a + init;
      assert [ab[|ab| - 1]] == last;
      FilteredLast(sha, ab, ids);
      FilteredLast(sha, b, ids);
      FilteredAppend(sha, a, init, ids);
      assert Filtered(sha, ab, ids) == (Filtered(sha, a, ids) + Filtered(sha, init, ids)) + Filtered(sha, last, ids);
    }
  }

  /** Exactly the entries whose ID is in ids go, duplicates included; the rest stay, counted. */
  lemma {:induction false} FilteredCount(sha: Sha256, s: seq<Transaction>, ids: set<string>, x: Transaction)
    ensures multiset(Filtered(sha, s, ids))[x] == if ID(sha, x) in ids then 0 else multiset(s)[x]
    decreases |s|
  {
    if s != [] {
      var init, last := s[..|s| - 1], s[|s| - 1];
      var tail := if ID(sha, last) in ids then [] else [last];
      FilteredCount(sha, init, ids, x);
      MultisetSplitLast(s);
      assert multiset(Filtered(sha, s, ids)) == multiset(Filtered(sha, init, ids)) + multiset(tail);
    }
  }

  lemma MultisetSplitLast<T>(s: seq<T>)
    requires s != []
    ensures multiset(s) == multiset(s[..|s| - 1]) + multiset{s[|s| - 1]}
  {
    assert s == s[..|s| - 1] + [s[|s| - 1]];
  }

  /** No surviving entry has a listed identifier. */
  lemma {:induction false} FilteredKeepsOnlyUnlisted(sha: Sha256, s: seq<Transaction>, ids: set<string>)
    ensures forall i :: 0 <= i < |Filtered(sha, s, ids)| ==> ID(sha, Filtered(sha, s, ids)[i]) !in ids
    decreases |s|
  {
    if s != [] {
      FilteredKeepsOnlyUnlisted(sha, s[..|s| - 1], ids);
    }
  }

  /** Filtering a second time with the same identifiers removes nothing more. */
  lemma {:induction false} FilteredIdempotent(sha: Sha256, s: seq<Transaction>, ids: set<string>)
    ensures Filtered(sha, Filtered(sha, s, ids), ids) == Filtered(sha, s, ids)
    decreases |s|
  {
    if s != [] {
      var init, last := s[..|s| - 1], s[|s| - 1];
      var tail := if ID(sha, last) in ids then [] else [last];
      FilteredIdempotent(sha, init, ids);
      FilteredAppend(sha, Filtered(sha, init, ids), tail, ids);
      if tail != [] {
        assert Filtered(sha, tail, ids) == Filtered(sha, [], ids) + tail by {
          assert tail[..0] == [];
        }
      }
    }
  }

  /** With no identifiers nothing is removed. */
  lemma {:induction false} FilteredNothing(sha: Sha256, s: seq<Transaction>)
    ensures Filtered(sha, s, {}) == s
    decreases |s|
  {
    if s != [] {
      var init, last := s[..|s| - 1], s[|s| - 1];
      FilteredNothing(sha, init);
      assert ID(sha, last) !in {};
      assert s == init + [last];
    }
  }

  /** ClearMined with an empty list keeps the pool as it is. */
  lemma ClearMinedEmptyKeeps(sha: Sha256, pool: seq<Transaction>)
    ensures Filtered(sha, pool, IdSet(sha, [])) == pool
  {
    assert IdSet(sha, []) == {};
    FilteredNothing(sha, pool);
  }

  class Mempool {
    var txs: seq<Transaction>

    /** NewMempool. */
    constructor ()
      ensures txs == []
    {
      txs := [];
    }

    method Push(tx: Transaction)
      modifies this
      ensures txs == old(txs) + [tx]
    {
      txs := txs + [tx];
    }

    /** Takes up to n transactions off the front. */
    method PopMany(n: i64) returns (popped: seq<Transaction>)
      modifies this
      ensures n <= 0 || old(txs) == [] ==> popped == [] && txs == old(txs)
      ensures n > 0 && old(txs) != [] ==>
        var k := if n < |old(txs)| then n else |old(txs)|;
        popped == old(txs)[..k] && txs == old(txs)[k..]
      ensures popped + txs == old(txs)
    {
      if n <= 0 || |txs| == 0 {
        return [];
      }
      var k: int := n;
      if k > |txs| {
        k := |txs|;
      }
      popped := txs[..k];
      txs := txs[k..];
    }

    /** A copy of the pool; Go returns nil for an empty pool, the empty sequence here. */
    method PendingTransactions() returns (pending: seq<Transaction>)
      ensures pending == txs
    {
      if |txs| == 0 {
        return [];
      }
      pending := txs;
    }

    /** Drops every entry whose ID matches that of some transaction in mined. */
    method ClearMined(sha: Sha256, mined: seq<Transaction>)
      modifies this
      ensures txs == Filtered(sha, old(txs), IdSet(sha, mined))
    {
      if |mined| == 0 {
        assert IdSet(sha, mined) == {};
        FilteredNothing(sha, txs);
        return;
      }
      var ids: set<string> := {};
      var i := 0;
      while i < |mined|
        invariant 0 <= i <= |mined|
        invariant ids == IdSet(sha, mined[..i])
        invariant txs == old(txs)
      {
        IdSetStep(sha, mined, i);
        ids := ids + {ID(sha, mined[i])};
        i := i + 1;
      }
      assert mined[..i] == mined;
      if |txs| == 0 {
        return;
      }
      var filtered: seq<Transaction> := [];
      var j := 0;
      while j < |txs|
        invariant 0 <= j <= |txs|
        invariant filtered == Filtered(sha, txs[..j], ids)
        invariant txs == old(txs)
      {
        FilteredStep(sha, txs, ids, j);
        if ID(sha, txs[j]) !in ids {
          filtered := filtered + [txs[j]];
        }
        j := j + 1;
      }
      assert txs[..j] == txs;
      txs := filtered;
    }

    method Clear()
      modifies this
      ensures txs == []
    {
      txs := [];
    }

    method Len() returns (n: nat)
      ensures n == |txs|
    {
      n := |txs|;
    }
  }
}
