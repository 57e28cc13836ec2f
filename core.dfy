/**
  The ledger's value types (core/block.go, core/tx.go) and the transaction
  identifier.
*/
module Core {
  import opened Text
  import opened Crypto

  const U64_LIMIT: int := 0x1_0000_0000_0000_0000

  /** Go's uint64. */
  type u64 = x: int | 0 <= x < 0x1_0000_0000_0000_0000

  /** Go's int and int64 (64 bits on the node's platforms). */
  type i64 = x: int | -0x8000_0000_0000_0000 <= x < 0x8000_0000_0000_0000

  /**
    A transfer request. `timestamp` is not declared in core/tx.go although
    consensus/pow.go reads and writes it; it is added here and takes no part
    in the identifier.
  */
  datatype Transaction = Transaction(
    from: string,
    to: string,
    amount: i64,
    nonce: u64,
    signature: string,
    timestamp: i64)

  datatype Block = Block(
    number: u64,
    prevHash: string,
    timestamp: i64,
    transactions: seq<Transaction>,
    nonce: u64,
    hash: string)

  /** The string ID() hashes: the five fields run together, no separators. */
  function IdPreimage(tx: Transaction): string
  {
    tx.from + tx.to + IntToDecimal(tx.amount) + NatToDecimal(tx.nonce) + tx.signature
  }

  /** Transaction.ID(): the SHA-256 of the preimage, printed with %x. */
  function ID(sha: Sha256, tx: Transaction): (id: string)
    ensures |id| == 64 && AllLowerHex(id)
  {
    Hex(sha(IdPreimage(tx)))
  }

  /** Reading the identifier's hex digits back gives the SHA-256 of the preimage. */
  lemma IdIsDigestOfPreimage(sha: Sha256, tx: Transaction)
    ensures Unhex(ID(sha, tx)) == sha(IdPreimage(tx))
  {
    HexRoundTrip(sha(IdPreimage(tx)));
  }

  /** The identifier reads only from, to, amount, nonce and signature. */
  lemma IdIgnoresTimestamp(sha: Sha256, t1: Transaction, t2: Transaction)
    requires t1.from == t2.from && t1.to == t2.to && t1.amount == t2.amount
    requires t1.nonce == t2.nonce && t1.signature == t2.signature
    ensures ID(sha, t1) == ID(sha, t2)
  {
  }

  /**
    Without separators, two transactions whose from and to run together to
    the same text, and that agree on the other hashed fields, share an ID.
  */
  lemma IdResplitCollision(sha: Sha256, t1: Transaction, t2: Transaction)
    requires t1.from + t1.to == t2.from + t2.to
    requires t1.amount == t2.amount && t1.nonce == t2.nonce && t1.signature == t2.signature
    ensures ID(sha, t1) == ID(sha, t2)
  {
    assert IdPreimage(t1) == IdPreimage(t2);
  }

  /** For instance, "ab" paying "c" and "a" paying "bc" are different transfers with one ID. */
  lemma IdBoundaryCollision(sha: Sha256)
    ensures Transaction("ab", "c", 5, 1, "s", 0) != Transaction("a", "bc", 5, 1, "s", 0)
    ensures ID(sha, Transaction("ab", "c", 5, 1, "s", 0)) == ID(sha, Transaction("a", "bc", 5, 1, "s", 0))
  {
    IdResplitCollision(sha, Transaction("ab", "c", 5, 1, "s", 0), Transaction("a", "bc", 5, 1, "s", 0));
  }

  /**
    The amount is printed signed and the nonce unsigned, so a negative
    amount's '-' can sit where a To address character would: paying "x" the
    amount -1 collides with paying "x-" the amount 1.
  */
  lemma IdSignCollision(sha: Sha256)
    ensures ID(sha, Transaction("a", "x", -1, 7, "s", 0)) == ID(sha, Transaction("a", "x-", 1, 7, "s", 0))
  {
    assert IntToDecimal(-1) == "-1";
    assert IntToDecimal(1) == "1";
    assert IdPreimage(Transaction("a", "x", -1, 7, "s", 0)) == IdPreimage(Transaction("a", "x-", 1, 7, "s", 0));
  }
}
