/**
  The cryptographic primitives the node relies on, left uninterpreted. Each
  is a function-typed value that the operations using it take as a
  parameter, so every statement proved holds for any choice of primitive.
  Hashes take the string whose UTF-8 bytes the Go code hashes.
*/
module Crypto {
  import opened Wrappers
  import opened Text

  /** A 32-byte digest. */
  type Digest = d: seq<Byte> | |d| == 32 witness seq(32, _ => 0)

  /** SHA-256 (FIPS 180-4, section 6.2), as crypto/sha256.Sum256. */
  type Sha256 = string -> Digest

  /**
    The go-ethereum calls behind signature checking:
    - keccak256: crypto.Keccak256, the original Keccak padding (not FIPS 202 SHA3-256);
    - decodeHex: hexutil.Decode, which fails without a "0x" prefix;
    - ecrecover: crypto.Ecrecover, secp256k1 public-key recovery (SEC 2 v2, section 2.4.1);
    - pubkeyToAddress: crypto.UnmarshalPubkey followed by PubkeyToAddress(..).Hex().
    Failures carry the library's error text.
  */
  datatype Secp256k1 = Secp256k1(
    keccak256: string -> Digest,
    decodeHex: string -> Result<seq<Byte>, string>,
    ecrecover: (Digest, seq<Byte>) -> Result<seq<Byte>, string>,
    pubkeyToAddress: seq<Byte> -> Result<string, string>)
}
