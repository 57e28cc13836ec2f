/**
  Proof-of-work block building (consensus/pow.go). The block hash is the
  SHA-256 of "%d%s%d%d" over number, previous hash, nonce and timestamp,
  printed with %x; the transactions are not hashed. A block is valid when
  that hex string starts with `difficulty` zeros.
*/
module Pow {
  import opened Text
  import opened Crypto
  import opened Core
  import opened Ledger
  import opened Pool

  /** hs[:diff] on the 64-character hash panics beyond 64. */
  type Difficulty = d: int | 0 <= d <= 64

  function BlockPreimage(number: u64, prevHash: string, nonce: u64, timestamp: i64): string
  {
    NatToDecimal(number) + prevHash + NatToDecimal(nonce) + IntToDecimal(timestamp)
  }

  /** The hex hash of a block header with the given nonce. */
  function HeaderHash(sha: Sha256, number: u64, prevHash: string, timestamp: i64, nonce: u64): (hs: string)
    ensures |hs| == 64 && AllLowerHex(hs)
  {
    Hex(sha(BlockPreimage(number, prevHash, nonce, timestamp)))
  }

  /** `hs[:diff] == strings.Repeat("0", diff)`. */
  predicate MeetsDifficulty(hs: string, diff: Difficulty)
    requires |hs| == 64
  {
    hs[..diff] == Repeat('0', diff)
  }

  predicate Solves(sha: Sha256, number: u64, prevHash: string, timestamp: i64, diff: Difficulty, nonce: u64)
  {
    MeetsDifficulty(HeaderHash(sha, number, prevHash, timestamp, nonce), diff)
  }

  /**
    ValidateBlock: recomputes the hash from the header and the stored nonce
    and checks its leading zeros; the stored Hash field and the
    transactions play no part.
  */
  function ValidateBlock(sha: Sha256, diff: Difficulty, b: Block): (valid: bool)
    ensures valid <==> forall i :: 0 <= i < diff ==> HeaderHash(sha, b.number, b.prevHash, b.timestamp, b.nonce)[i] == '0'
  {
    var hs := HeaderHash(sha, b.number, b.prevHash, b.timestamp, b.nonce);
    assert MeetsDifficulty(hs, diff) <==> forall i :: 0 <= i < diff ==> hs[i] == '0' by {
      if forall i :: 0 <= i < diff ==> hs[i] == '0' {
        assert hs[..diff] == Repeat('0', diff);
      }
    }
    MeetsDifficulty(hs, diff)
  }

  /** Two blocks with the same header fields and nonce are equally valid. */
  lemma ValidateBlockIgnoresHashAndTxs(sha: Sha256, diff: Difficulty, b1: Block, b2: Block)
    requires b1.number == b2.number && b1.prevHash == b2.prevHash
    requires b1.timestamp == b2.timestamp && b1.nonce == b2.nonce
    ensures ValidateBlock(sha, diff, b1) == ValidateBlock(sha, diff, b2)
  {
  }

  /** A block whose stored nonce solves its header is valid. */
  lemma SolvedIsValid(sha: Sha256, diff: Difficulty, b: Block)
    requires Solves(sha, b.number, b.prevHash, b.timestamp, diff, b.nonce)
    ensures ValidateBlock(sha, diff, b)
  {
  }

  /** No nonce in 1..n solves the header. */
  ghost predicate NoSolutionUpTo(sha: Sha256, number: u64, prevHash: string, timestamp: i64, diff: Difficulty, n: u64)
  {
    forall m: u64 :: 1 <= m <= n ==> !Solves(sha, number, prevHash, timestamp, diff, m)
  }

  lemma NoSolutionStep(sha: Sha256, number: u64, prevHash: string, timestamp: i64, diff: Difficulty, n: u64)
    requires 1 <= n
    requires NoSolutionUpTo(sha, number, prevHash, timestamp, diff, n - 1)
    requires !Solves(sha, number, prevHash, timestamp, diff, n)
    ensures NoSolutionUpTo(sha, number, prevHash, timestamp, diff, n)
  {
  }

  /**
    mineBlock: tries nonces 1, 2, 3, ... and returns the first that meets the
    difficulty, with its hash. The source loops forever when no nonce below
    2^64 works; the model requires that one does.
  */
  method MineBlock(sha: Sha256, b: Block, diff: Difficulty) returns (nonce: u64, hash: string)
    requires exists n: u64 :: 1 <= n && Solves(sha, b.number, b.prevHash, b.timestamp, diff, n)
    ensures 1 <= nonce && Solves(sha, b.number, b.prevHash, b.timestamp, diff, nonce)
    ensures forall m: u64 :: 1 <= m < nonce ==> !Solves(sha, b.number, b.prevHash, b.timestamp, diff, m)
    ensures hash == HeaderHash(sha, b.number, b.prevHash, b.timestamp, nonce)
  {
    ghost var w: u64 :| 1 <= w && Solves(sha, b.number, b.prevHash, b.timestamp, diff, w);
    var n: u64 := 0;
    while true
      invariant n < w
      invariant NoSolutionUpTo(sha, b.number, b.prevHash, b.timestamp, diff, n)
      decreases w - n
    {
      n := n + 1;
      var hs := HeaderHash(sha, b.number, b.prevHash, b.timestamp, n);
      if MeetsDifficulty(hs, diff) {
        return n, hs;
      }
      assert !Solves(sha, b.number, b.prevHash, b.timestamp, diff, n);
      NoSolutionStep(sha, b.number, b.prevHash, b.timestamp, diff, n);
    }
  }

  /** One transaction as mine stamps it: a zero timestamp takes the block's. */
  method StampTransactions(txs: seq<Transaction>, now: i64) returns (stamped: seq<Transaction>)
    ensures |stamped| == |txs|
    ensures forall i :: 0 <= i < |txs| ==>
      stamped[i].timestamp == (if txs[i].timestamp == 0 then now else txs[i].timestamp)
    ensures forall i :: 0 <= i < |txs| ==> stamped[i] == txs[i].(timestamp := stamped[i].timestamp)
  {
    stamped := txs;
    var i := 0;
    while i < |stamped|
      invariant 0 <= i <= |stamped| == |txs|
      invariant forall k :: 0 <= k < i ==>
        stamped[k] == txs[k].(timestamp := if txs[k].timestamp == 0 then now else txs[k].timestamp)
      invariant forall k :: i <= k < |txs| ==> stamped[k] == txs[k]
    {
      if stamped[i].timestamp == 0 {
        stamped := stamped[i := stamped[i].(timestamp := now)];
      }
      i := i + 1;
    }
  }

  /** The number after last's, wrapping like Go's uint64 addition. */
  function NextNumber(last: Block): u64
  {
    (last.number + 1) % U64_LIMIT
  }

  class PoW {
    const chain: Chain
    const mempool: Mempool
    const difficulty: Difficulty

    /** NewPoW. */
    constructor (c: Chain, m: Mempool, diff: Difficulty)
      ensures chain == c && mempool == m && difficulty == diff
    {
      chain := c;
      mempool := m;
      difficulty := diff;
    }

    /**
      mine at wall-clock second now: with an empty mempool, false and no
      change; otherwise a block on top of the tip holding the stamped
      pending transactions, with the first working nonce, is appended, the
      mempool is emptied (Clear, not ClearMined) and the result is true.
    */
    method Mine(sha: Sha256, now: i64) returns (mined: bool)
      requires chain.Valid()
      requires mempool.txs != [] ==>
        exists n: u64 :: 1 <= n && Solves(sha, NextNumber(chain.LatestBlock()), chain.LatestBlock().hash, now, difficulty, n)
      modifies chain, mempool
      ensures chain.Valid()
      ensures old(mempool.txs) == [] ==>
        !mined && unchanged(chain) && unchanged(mempool)
      ensures old(mempool.txs) != [] ==>
        && mined
        && |chain.blocks| == |old(chain.blocks)| + 1
        && chain.blocks[..|old(chain.blocks)|] == old(chain.blocks)
        && chain.LatestBlock().number == NextNumber(old(chain.LatestBlock()))
        && chain.LatestBlock().prevHash == old(chain.LatestBlock()).hash
        && chain.LatestBlock().timestamp == now
        && ValidateBlock(sha, difficulty, chain.LatestBlock())
        && chain.LatestBlock().hash == HeaderHash(sha, chain.LatestBlock().number, chain.LatestBlock().prevHash, now, chain.LatestBlock().nonce)
        && |chain.LatestBlock().transactions| == |old(mempool.txs)|
        && (forall i :: 0 <= i < |old(mempool.txs)| ==>
              chain.LatestBlock().transactions[i] ==
              old(mempool.txs)[i].(timestamp := if old(mempool.txs)[i].timestamp == 0 then now else old(mempool.txs)[i].timestamp))
        && chain.state == ApplyTxs(old(chain.state), chain.LatestBlock().transactions)
        && chain.nonces == old(chain.nonces)
        && mempool.txs == []
    {
      var txs := mempool.PendingTransactions();
      if |txs| == 0 {
        return false;
      }
      var last := chain.LatestBlock();
      txs := StampTransactions(txs, now);
      var block := Block(NextNumber(last), last.hash, now, txs, 0, "");
      var nonce, hash := MineBlock(sha, block, difficulty);
      block := block.(nonce := nonce, hash := hash);
      SolvedIsValid(sha, difficulty, block);
      chain.AddBlock(block);
      mempool.Clear();
      mined := true;
    }
  }
}
