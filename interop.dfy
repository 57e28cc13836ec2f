/**
  The message the dashboard signs against the one the node checks. The
  dashboard signs JSON.stringify({from, to, amount, nonce}); the node
  rebuilds `{"from":"%s","to":"%s","amount":%d,"nonce":%d}` with fmt
  (rpc/server.go), inserting the addresses without escaping. The two agree
  when the addresses need no JSON escape and the numbers are integers no
  larger than 2^53 - 1 in magnitude.
*/
module Interop {
  import opened Wrappers
  import opened Text
  import opened Core
  import opened Rpc
  import opened Terminal

  /** A character JSON.stringify writes as itself inside a string. */
  predicate PlainChar(c: char)
  {
    c != '"' && c != '\\' && c as int >= 0x20
  }

  predicate Plain(s: string)
  {
    forall i :: 0 <= i < |s| ==> PlainChar(s[i])
  }

  /** The escape JSON.stringify writes for one character (QuoteJSONString). */
  function EscapeChar(c: char): (e: string)
    ensures PlainChar(c) <==> e == [c]
    ensures |e| >= 1 && (|e| == 1 <==> PlainChar(c))
  {
    if c == '"' then "\\\""
    else if c == '\\' then "\\\\"
    else if c == '\U{0008}' then "\\b"
    else if c == '\U{000C}' then "\\f"
    else if c == '\n' then "\\n"
    else if c == '\r' then "\\r"
    else if c == '\t' then "\\t"
    else if c as int < 0x20 then "\\u00" + [HexChar(c as int / 16), HexChar(c as int % 16)]
    else [c]
  }

  function Escape(s: string): string
    decreases |s|
  {
    if s == [] then "" else Escape(s[..|s| - 1]) + EscapeChar(s[|s| - 1])
  }

  lemma {:induction false} EscapePlain(s: string)
    requires Plain(s)
    ensures Escape(s) == s
    decreases |s|
  {
    if s != [] {
      EscapePlain(s[..|s| - 1]);
      assert s == s[..|s| - 1] + [s[|s| - 1]];
    }
  }

  /** Escaping never shortens a string, and keeps its length exactly when there is nothing to escape. */
  lemma {:induction false} EscapeLength(s: string)
    ensures |Escape(s)| >= |s|
    ensures |Escape(s)| == |s| <==> Plain(s)
    decreases |s|
  {
    if s != [] {
      var init, last := s[..|s| - 1], s[|s| - 1];
      EscapeLength(init);
      if Plain(s) {
        assert Plain(init) by {
          forall i | 0 <= i < |init| ensures PlainChar(init[i]) { assert init[i] == s[i]; }
        }
        assert PlainChar(s[|s| - 1]);
      } else if Plain(init) {
        var k :| 0 <= k < |s| && !PlainChar(s[k]);
        if k < |init| { assert init[k] == s[k]; }
      }
    }
  }

  /** A JSON string literal. */
  function Quote(s: string): string
  {
    "\"" + Escape(s) + "\""
  }

  /** Number.MAX_SAFE_INTEGER, 2^53 - 1. */
  const MaxSafeInteger: int := 9007199254740991

  /**
    An integer every double up to this magnitude represents exactly, so that
    Number::toString writes all of its digits. Above it, JavaScript writes
    the shortest digits that round-trip and pads with zeros (2^60 prints as
    1152921504606847000), which this model does not compute.
  */
  predicate SafeInteger(v: real)
  {
    v.Floor as real == v && -MaxSafeInteger <= v.Floor <= MaxSafeInteger
  }

  /**
    JSON.stringify of a number: NaN is null and a safe integer is its decimal
    digits; other numbers are not modelled (None).
  */
  function NumberJson(n: JsNumber): (r: Option<string>)
    ensures n.Num? && SafeInteger(n.value) ==> r == Some(IntToDecimal(n.value.Floor))
    ensures n.Num? && !SafeInteger(n.value) ==> r.None?
    ensures n.NaN? ==> r == Some("null")
  {
    match n
    case NaN => Some("null")
    case Num(v) => if SafeInteger(v) then Some(IntToDecimal(v.Floor)) else None
  }

  /** JSON.stringify of the payload, keys in insertion order. */
  function Stringify(p: Payload): Option<string>
  {
    match NumberJson(p.amount)
    case None => None
    case Some(amount) =>
      match NumberJson(Num(p.nonce as real))
      case None => None
      case Some(nonce) =>
        Some("{\"from\":" + Quote(p.from) + ",\"to\":" + Quote(p.to)
          + ",\"amount\":" + amount + ",\"nonce\":" + nonce + "}")
  }

  /** The payload the dashboard builds for tx. */
  function PayloadFor(tx: Transaction): Payload
  {
    Payload(tx.from, tx.to, Num(tx.amount as real), tx.nonce)
  }

  /**
    For addresses with nothing to escape and an amount and nonce no larger
    than 2^53 - 1 in magnitude, the dashboard's signed text is the node's
    signing message for the same transaction.
  */
  lemma StringifyIsSigningMessage(tx: Transaction)
    requires Plain(tx.from) && Plain(tx.to)
    requires -MaxSafeInteger <= tx.amount <= MaxSafeInteger && tx.nonce <= MaxSafeInteger
    ensures Stringify(PayloadFor(tx)) == Some(SigningMessage(tx))
  {
    EscapePlain(tx.from);
    EscapePlain(tx.to);
    assert (tx.amount as real).Floor == tx.amount;
    assert (tx.nonce as real).Floor == tx.nonce;
    var a, n := IntToDecimal(tx.amount), NatToDecimal(tx.nonce);
    assert NumberJson(Num(tx.amount as real)) == Some(a);
    assert NumberJson(Num(tx.nonce as real)) == Some(n);
    assert Quote(tx.from) == "\"" + tx.from + "\"";
    assert Quote(tx.to) == "\"" + tx.to + "\"";
    SameLayout(tx.from, tx.to, a, n);
  }

  /** Quoting the fields in JSON lays the characters out as the fmt template does. */
  lemma SameLayout(f: string, t: string, a: string, n: string)
    ensures "{\"from\":" + ("\"" + f + "\"") + ",\"to\":" + ("\"" + t + "\"") + ",\"amount\":" + a + ",\"nonce\":" + n + "}"
      == MsgOpen + f + MsgTo + t + MsgAmount + a + MsgNonce + n + MsgClose
  {
    assert "{\"from\":" + "\"" == MsgOpen;
    assert "\"" + ",\"to\":" + "\"" == MsgTo;
    assert "\"" + ",\"amount\":" == MsgAmount;
  }

  /**
    Conversely, when either address needs an escape, the dashboard signs a
    longer text than the message the node checks, so the two never agree.
    (For an amount or nonce beyond 2^53 - 1 Stringify is not modelled and
    is None.)
  */
  lemma EscapedAddressDiverges(tx: Transaction)
    requires !Plain(tx.from) || !Plain(tx.to)
    ensures Stringify(PayloadFor(tx)) != Some(SigningMessage(tx))
  {
    if !SafeInteger(tx.amount as real) || !SafeInteger(tx.nonce as real) {
      return;
    }
    EscapeLength(tx.from);
    EscapeLength(tx.to);
    assert (tx.amount as real).Floor == tx.amount;
    assert (tx.nonce as real).Floor == tx.nonce;
    var a, n := IntToDecimal(tx.amount), NatToDecimal(tx.nonce);
    assert NumberJson(Num(tx.amount as real)) == Some(a);
    assert NumberJson(Num(tx.nonce as real)) == Some(n);
    assert |Stringify(PayloadFor(tx)).value| == 38 + |Escape(tx.from)| + |Escape(tx.to)| + |a| + |n|;
    assert |SigningMessage(tx)| == 38 + |tx.from| + |tx.to| + |a| + |n|;
  }
}
