/**
  The node's in-memory ledger (core/chain.go): the block list, the balance
  map and the nonce map. Go's map lookup yields 0 for a missing key, which
  BalanceOf and NonceOf model; the lock is left out.
*/
module Ledger {
  import opened Core

  // ------------------------------------------------------ balance arithmetic

  function BalanceOf(state: map<string, int>, addr: string): int
  {
    if addr in state then state[addr] else 0
  }

  function NonceOf(nonces: map<string, u64>, addr: string): u64
  {
    if addr in nonces then nonces[addr] else 0
  }

  /**
    `State[from] -= amount; State[to] += amount`, with no balance check: the
    debit lands first, so a self-transfer restores the original balance.
  */
  function Transfer(state: map<string, int>, from: string, to: string, amount: int): map<string, int>
  {
    var debited := state[from := BalanceOf(state, from) - amount];
    debited[to := BalanceOf(debited, to) + amount]
  }

  function Debit(a: string, party: string, amount: int): int
  {
    if a == party then amount else 0
  }

  /** A transfer adds both parties and moves amount from one to the other. */
  lemma TransferBalance(state: map<string, int>, from: string, to: string, amount: int, a: string)
    ensures Transfer(state, from, to, amount).Keys == state.Keys + {from, to}
    ensures BalanceOf(Transfer(state, from, to, amount), a) == BalanceOf(state, a) - Debit(a, from, amount) + Debit(a, to, amount)
  {
  }

  /** Applying one more transaction is one more transfer. */
  lemma ApplyTxsStep(state: map<string, int>, txs: seq<Transaction>, i: nat)
    requires i < |txs|
    ensures ApplyTxs(state, txs[..i + 1]) == Transfer(ApplyTxs(state, txs[..i]), txs[i].from, txs[i].to, txs[i].amount)
  {
    assert txs[..i + 1][..i] == txs[..i];
  }

  /** The balances after applying txs in order, as AddBlock's loop does. */
  function ApplyTxs(state: map<string, int>, txs: seq<Transaction>): map<string, int>
    decreases |txs|
  {
    if txs == [] then state
    else
      var last := txs[|txs| - 1];
      Transfer(ApplyTxs(state, txs[..|txs| - 1]), last.from, last.to, last.amount)
  }

  /** What txs send out of and into addr, in total. */
  function NetFlow(txs: seq<Transaction>, addr: string): int
    decreases |txs|
  {
    if txs == [] then 0
    else
      var last := txs[|txs| - 1];
      NetFlow(txs[..|txs| - 1], addr)
        - (if last.from == addr then last.amount else 0)
        + (if last.to == addr then last.amount else 0)
  }

  /** Each balance moves by exactly its net flow; nothing is checked. */
  lemma {:induction false} ApplyTxsBalance(state: map<string, int>, txs: seq<Transaction>, addr: string)
    ensures BalanceOf(ApplyTxs(state, txs), addr) == BalanceOf(state, addr) + NetFlow(txs, addr)
    decreases |txs|
  {
    if txs != [] {
      ApplyTxsBalance(state, txs[..|txs| - 1], addr);
    }
  }

  /** An address no transaction names keeps its balance. */
  lemma {:induction false} ApplyTxsUntouched(state: map<string, int>, txs: seq<Transaction>, addr: string)
    requires forall i :: 0 <= i < |txs| ==> txs[i].from != addr && txs[i].to != addr
    ensures BalanceOf(ApplyTxs(state, txs), addr) == BalanceOf(state, addr)
    decreases |txs|
  {
    if txs != [] {
      ApplyTxsUntouched(state, txs[..|txs| - 1], addr);
    }
  }

  /** Balances can go negative: an empty account may spend. */
  lemma OverdraftAccepted()
    ensures BalanceOf(ApplyTxs(map[], [Transaction("a", "b", 5, 1, "", 0)]), "a") == -5
  {
  }

  // ----------------------------------------------------------- total supply

  /** The sum of every balance in the map. */
  ghost function Sum(state: map<string, int>): int
    decreases |state|
  {
    if state == map[] then 0
    else
      var k :| k in state;
      state[k] + Sum(state - {k})
  }

  lemma {:induction false} SumRemove(state: map<string, int>, k: string)
    requires k in state
    ensures Sum(state) == state[k] + Sum(state - {k})
    decreases |state|
  {
    var j :| j in state && Sum(state) == state[j] + Sum(state - {j});
    if j != k {
      var both := state - {j} - {k};
      assert state - {j} - {k} == state - {k} - {j};
      SumRemove(state - {j}, k);
      SumRemove(state - {k}, j);
    }
  }

  lemma SumUpdate(state: map<string, int>, k: string, v: int)
    ensures Sum(state[k := v]) == Sum(state) - BalanceOf(state, k) + v
  {
    SumRemove(state[k := v], k);
    if k in state {
      SumRemove(state, k);
      assert state[k := v] - {k} == state - {k};
    } else {
      assert state[k := v] - {k} == state;
    }
  }

  /** A transfer moves value and creates none. */
  lemma TransferPreservesSum(state: map<string, int>, from: string, to: string, amount: int)
    ensures Sum(Transfer(state, from, to, amount)) == Sum(state)
  {
    var debited := state[from := BalanceOf(state, from) - amount];
    SumUpdate(state, from, BalanceOf(state, from) - amount);
    SumUpdate(debited, to, BalanceOf(debited, to) + amount);
  }

  lemma {:induction false} ApplyTxsPreservesSum(state: map<string, int>, txs: seq<Transaction>)
    ensures Sum(ApplyTxs(state, txs)) == Sum(state)
    decreases |txs|
  {
    if txs != [] {
      var last := txs[|txs| - 1];
      ApplyTxsPreservesSum(state, txs[..|txs| - 1]);
      TransferPreservesSum(ApplyTxs(state, txs[..|txs| - 1]), last.from, last.to, last.amount);
    }
  }

  // ---------------------------------------------------------------- genesis

  const DemoAddress1: string := "0x742d35Cc6634C0532925a3b844Bc454e4438f44e"
  const DemoAddress2: string := "0x742d35Cc6634C0532925a3b844Bc454e4438f44f"

  function GenesisBlock(): Block
  {
    Block(0, "", 0, [], 0, "")
  }

  /** The demo balances NewChain seeds. */
  function GenesisBalances(): (m: map<string, int>)
    ensures m.Keys == {DemoAddress1, DemoAddress2, "nandita", "aanya"}
    ensures |m| == 4
    ensures m[DemoAddress1] == 1000 && m[DemoAddress2] == 1000
    ensures m["nandita"] == 100 && m["aanya"] == 0
  {
    var m := map[DemoAddress1 := 1000, DemoAddress2 := 1000, "nandita" := 100, "aanya" := 0];
    assert DemoAddress1 != DemoAddress2 by { assert DemoAddress1[41] != DemoAddress2[41]; }
    m
  }

  // -------------------------------------------------------------- the chain

  class Chain {
    var blocks: seq<Block>
    var state: map<string, int>
    var nonces: map<string, u64>

    /** Every chain holds at least its genesis block. */
    ghost predicate Valid()
      reads this
    {
      |blocks| > 0
    }

    /** NewChain: the genesis block, the demo balances and no nonces. */
    constructor ()
      ensures Valid()
      ensures blocks == [GenesisBlock()]
      ensures blocks[0].number == 0 && blocks[0].prevHash == "" && blocks[0].timestamp == 0
      ensures state == GenesisBalances() && nonces == map[]
    {
      blocks := [GenesisBlock()];
      state := GenesisBalances();
      nonces := map[];
    }

    /**
      The chain tip. Chain.LatestBlock is called from consensus/pow.go but not
      defined in core/chain.go; it is taken to be the last block.
    */
    function LatestBlock(): Block
      reads this
      requires Valid()
    {
      blocks[|blocks| - 1]
    }

    /** Appends b unchecked and applies its transfers in order. */
    method AddBlock(b: Block)
      modifies this
      ensures blocks == old(blocks) + [b]
      ensures state == ApplyTxs(old(state), b.transactions)
      ensures nonces == old(nonces)
      ensures old(Valid()) ==> Valid()
    {
      blocks := blocks + [b];
      var i := 0;
      while i < |b.transactions|
        invariant 0 <= i <= |b.transactions|
        invariant state == ApplyTxs(old(state), b.transactions[..i])
        invariant blocks == old(blocks) + [b] && nonces == old(nonces)
      {
        var tx := b.transactions[i];
        ApplyTxsStep(old(state), b.transactions, i);
        state := Transfer(state, tx.from, tx.to, tx.amount);
        i := i + 1;
      }
      assert b.transactions[..i] == b.transactions;
    }

    method GetBalance(addr: string) returns (balance: int)
      ensures addr in state ==> balance == state[addr]
      ensures addr !in state ==> balance == 0
    {
      balance := BalanceOf(state, addr);
    }

    method GetNonce(addr: string) returns (nonce: u64)
      ensures addr in nonces ==> nonce == nonces[addr]
      ensures addr !in nonces ==> nonce == 0
    {
      nonce := NonceOf(nonces, addr);
    }

    method SetNonce(addr: string, nonce: u64)
      modifies this
      ensures nonces == old(nonces)[addr := nonce]
      ensures state == old(state) && blocks == old(blocks)
    {
      nonces := nonces[addr := nonce];
    }

    /**
      Credits amount to addr and returns the new balance. rpc/server.go calls
      Chain.AddBalance, which core/chain.go does not define; it is taken to be
      `State[addr] += amount`.
    */
    method AddBalance(addr: string, amount: int) returns (balance: int)
      modifies this
      ensures state == old(state)[addr := BalanceOf(old(state), addr) + amount]
      ensures balance == BalanceOf(state, addr)
      ensures blocks == old(blocks) && nonces == old(nonces)
    {
      balance := BalanceOf(state, addr) + amount;
      state := state[addr := balance];
    }
  }
}
