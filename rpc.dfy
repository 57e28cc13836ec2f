/**
  The node's admission rules (rpc/server.go): the CORS origin decision, the
  signed-message format, signature checking with the recovery left
  uninterpreted, ValidateTx, and the /submitTx and /api/faucet handlers.
  Request decoding and response encoding are left out: a handler receives
  the decoded body, or None when decoding failed, and returns its reply as
  a value.
*/
module Rpc {
  import opened Wrappers
  import opened Text
  import opened Crypto
  import opened Core
  import opened Ledger
  import opened Pool

  // ------------------------------------------------------------------ CORS

  const AllowedOrigins: seq<string> := [
    "http://localhost:5173",
    "http://localhost:3000",
    "http://127.0.0.1:5173",
    "http://127.0.0.1:3000"
  ]

  const AllowOriginHeader: string := "Access-Control-Allow-Origin"

  /** The scan of the allowlist in enableCORS. */
  method OriginAllowed(origin: string) returns (allowed: bool)
    ensures allowed <==> origin in AllowedOrigins
  {
    allowed := false;
    var i := 0;
    while i < |AllowedOrigins|
      invariant 0 <= i <= |AllowedOrigins|
      invariant !allowed && origin !in AllowedOrigins[..i]
    {
      if origin == AllowedOrigins[i] {
        allowed := true;
        break;
      }
      assert AllowedOrigins[..i + 1] == AllowedOrigins[..i] + [AllowedOrigins[i]];
      i := i + 1;
    }
    assert !allowed ==> AllowedOrigins[..i] == AllowedOrigins;
  }

  /**
    The status enableCORS writes itself (None when the wrapped handler
    decides it), the headers it sets, and whether it hands the request on.
  */
  datatype CorsOutcome = CorsOutcome(status: Option<int>, headers: map<string, string>, callsNext: bool)

  /**
    An allowlisted origin is echoed, a request without an origin gets "*",
    any other origin gets no Allow-Origin header; preflight OPTIONS requests
    are answered 200 without calling the wrapped handler.
  */
  method EnableCors(origin: string, httpMethod: string) returns (out: CorsOutcome)
    ensures AllowOriginHeader in out.headers <==> origin in AllowedOrigins || origin == ""
    ensures origin in AllowedOrigins ==> out.headers[AllowOriginHeader] == origin
    ensures origin == "" ==> out.headers[AllowOriginHeader] == "*"
    ensures out.headers.Keys - {AllowOriginHeader} == {
      "Access-Control-Allow-Methods", "Access-Control-Allow-Headers", "Access-Control-Allow-Credentials"}
    ensures out.headers["Access-Control-Allow-Methods"] == "GET, POST, OPTIONS"
    ensures out.headers["Access-Control-Allow-Headers"] == "Content-Type, Authorization"
    ensures out.headers["Access-Control-Allow-Credentials"] == "true"
    ensures out.callsNext <==> httpMethod != "OPTIONS"
    ensures httpMethod == "OPTIONS" ==> out.status == Some(200)
    ensures httpMethod != "OPTIONS" ==> out.status == None
  {
    var allowed := OriginAllowed(origin);
    var headers: map<string, string> := map[];
    if allowed {
      headers := headers[AllowOriginHeader := origin];
    } else if origin == "" {
      headers := headers[AllowOriginHeader := "*"];
    }
    headers := headers["Access-Control-Allow-Methods" := "GET, POST, OPTIONS"];
    headers := headers["Access-Control-Allow-Headers" := "Content-Type, Authorization"];
    headers := headers["Access-Control-Allow-Credentials" := "true"];
    if httpMethod == "OPTIONS" {
      out := CorsOutcome(Some(200), headers, false);
    } else {
      out := CorsOutcome(None, headers, true);
    }
  }

  // -------------------------------------------------------- signed message

  const MsgOpen: string := "{\"from\":\""
  const MsgTo: string := "\",\"to\":\""
  const MsgAmount: string := "\",\"amount\":"
  const MsgNonce: string := ",\"nonce\":"
  const MsgClose: string := "}"

  /**
    The message the sender must have signed: from and to inserted verbatim
    between quotes, amount and nonce in decimal, no whitespace.
  */
  function SigningMessage(tx: Transaction): string
  {
    MsgOpen + tx.from + MsgTo + tx.to + MsgAmount + IntToDecimal(tx.amount)
      + MsgNonce + NatToDecimal(tx.nonce) + MsgClose
  }

  /** The four fields the signed message carries. */
  datatype SignedFields = SignedFields(from: string, to: string, amount: int, nonce: nat)

  function FieldsOf(tx: Transaction): SignedFields
  {
    SignedFields(tx.from, tx.to, tx.amount, tx.nonce)
  }

  predicate HasPrefix(s: string, p: string)
  {
    |p| <= |s| && s[..|p|] == p
  }

  /** The first position of c in s. */
  function IndexOf(s: string, c: char): (r: Option<nat>)
    ensures r.Some? ==> r.value < |s| && s[r.value] == c
    ensures r.Some? ==> forall k :: 0 <= k < r.value ==> s[k] != c
    ensures r.None? ==> c !in s
  {
    if s == [] then None
    else if s[0] == c then Some(0)
    else
      match IndexOf(s[1..], c)
      case None => None
      case Some(k) => Some(k + 1)
  }

  /** s cut just before its first c: the part without c, and the rest. */
  function SplitBefore(s: string, c: char): Option<(string, string)>
  {
    match IndexOf(s, c)
    case None => None
    case Some(k) => Some((s[..k], s[k..]))
  }

  lemma SplitBeforeAt(a: string, b: string, c: char)
    requires c !in a && b != [] && b[0] == c
    ensures SplitBefore(a + b, c) == Some((a, b))
  {
    var s := a + b;
    assert s[|a|] == c;
    assert forall k :: 0 <= k < |a| ==> s[k] == a[k];
    assert s[..|a|] == a && s[|a|..] == b;
  }

  /** Strips a known prefix p from p + rest. */
  lemma DropPrefix(p: string, rest: string)
    ensures HasPrefix(p + rest, p) && (p + rest)[|p|..] == rest
  {
    assert (p + rest)[..|p|] == p;
  }

  /** Reads the four fields back out of a message of SigningMessage's shape. */
  function ParseSigningMessage(m: string): Option<SignedFields>
  {
    if HasPrefix(m, MsgOpen) then ParseFromField(m[|MsgOpen|..]) else None
  }

  function ParseFromField(r: string): Option<SignedFields>
  {
    match SplitBefore(r, '"')
    case None => None
    case Some((from, rest)) =>
      if HasPrefix(rest, MsgTo) then ParseToField(from, rest[|MsgTo|..]) else None
  }

  function ParseToField(from: string, r: string): Option<SignedFields>
  {
    match SplitBefore(r, '"')
    case None => None
    case Some((to, rest)) =>
      if HasPrefix(rest, MsgAmount) then ParseAmountField(from, to, rest[|MsgAmount|..]) else None
  }

  function ParseAmountField(from: string, to: string, r: string): Option<SignedFields>
  {
    match SplitBefore(r, ',')
    case None => None
    case Some((amountText, rest)) =>
      if HasPrefix(rest, MsgNonce) then ParseNonceField(from, to, amountText, rest[|MsgNonce|..]) else None
  }

  function ParseNonceField(from: string, to: string, amountText: string, r: string): Option<SignedFields>
  {
    if r == [] || r[|r| - 1] != '}' then None
    else
      match (ParseInt(amountText), ParseNat(r[..|r| - 1]))
      case (Some(amount), Some(nonce)) => Some(SignedFields(from, to, amount, nonce))
      case _ => None
  }

  lemma NoCommaInDecimal(i: int)
    ensures ',' !in IntToDecimal(i)
  {
    var s := IntToDecimal(i);
    forall k | 0 <= k < |s|
      ensures s[k] != ','
    {
      if i < 0 && k > 0 {
        assert s[k] == s[1..][k - 1];
      }
    }
  }

  /**
    When neither address holds a double quote, the signed message determines
    from, to, amount and nonce.
  */
  lemma SigningMessageRoundTrip(tx: Transaction)
    requires '"' !in tx.from && '"' !in tx.to
    ensures ParseSigningMessage(SigningMessage(tx)) == Some(FieldsOf(tx))
  {
    var r5 := IntToDecimal(tx.amount) + (MsgNonce + (NatToDecimal(tx.nonce) + MsgClose));
    var r1 := tx.from + (MsgTo + (tx.to + (MsgAmount + r5)));
    assert SigningMessage(tx) == MsgOpen + r1;
    DropPrefix(MsgOpen, r1);
    assert ParseSigningMessage(SigningMessage(tx)) == ParseFromField(r1);
    AddressesRoundTrip(tx.from, tx.to, r5);
    AmountNonceRoundTrip(tx.from, tx.to, tx.amount, tx.nonce);
  }

  /** The two quoted address fields read back as written. */
  lemma AddressesRoundTrip(from: string, to: string, r5: string)
    requires '"' !in from && '"' !in to
    ensures ParseFromField(from + (MsgTo + (to + (MsgAmount + r5)))) == ParseAmountField(from, to, r5)
  {
    var r4 := MsgAmount + r5;
    var r3 := to + r4;
    var r2 := MsgTo + r3;
    SplitBeforeAt(from, r2, '"');
    DropPrefix(MsgTo, r3);
    assert ParseFromField(from + r2) == ParseToField(from, r3);
    SplitBeforeAt(to, r4, '"');
    DropPrefix(MsgAmount, r5);
  }

  /** The amount and nonce fields read back as the numbers written. */
  lemma AmountNonceRoundTrip(from: string, to: string, amount: int, nonce: nat)
    ensures ParseAmountField(from, to, IntToDecimal(amount) + (MsgNonce + (NatToDecimal(nonce) + MsgClose)))
      == Some(SignedFields(from, to, amount, nonce))
  {
    var a, n := IntToDecimal(amount), NatToDecimal(nonce);
    var r7 := n + MsgClose;
    var r6 := MsgNonce + r7;
    NoCommaInDecimal(amount);
    SplitBeforeAt(a, r6, ',');
    DropPrefix(MsgNonce, r7);
    assert ParseAmountField(from, to, a + r6) == ParseNonceField(from, to, a, r7);
    assert r7[..|r7| - 1] == n;
    IntToDecimalRoundTrip(amount);
    NatToDecimalRoundTrip(nonce);
  }

  /** Hence two quote-free transactions that sign the same message agree on the four fields. */
  lemma SigningMessageDeterminesFields(t1: Transaction, t2: Transaction)
    requires '"' !in t1.from && '"' !in t1.to && '"' !in t2.from && '"' !in t2.to
    requires SigningMessage(t1) == SigningMessage(t2)
    ensures FieldsOf(t1) == FieldsOf(t2)
  {
    SigningMessageRoundTrip(t1);
    SigningMessageRoundTrip(t2);
  }

  /**
    Addresses are inserted unescaped, so a quote in an address lets two
    different transfers share one signed message.
  */
  lemma QuotedAddressesCollide()
    ensures SigningMessage(Transaction("a\",\"to\":\"b", "c", 1, 1, "", 0))
         == SigningMessage(Transaction("a", "b\",\"to\":\"c", 1, 1, "", 0))
  {
    assert IntToDecimal(1) == "1" && NatToDecimal(1) == "1";
  }

  // ----------------------------------------------------- signature checking

  /** The address go-ethereum recovers from the signature over message. */
  function RecoveredAddress(cr: Secp256k1, message: string, sigHex: string): Result<string, string>
  {
    match cr.decodeHex(sigHex)
    case Err(e) => Err(e)
    case Ok(sig) =>
      match cr.ecrecover(cr.keccak256(message), sig)
      case Err(e) => Err(e)
      case Ok(pub) => cr.pubkeyToAddress(pub)
  }

  /**
    VerifySignature: true when the recovered address equals address up to
    letter case, false when it differs, and an error when decoding or
    recovery fails.
  */
  function VerifySignature(cr: Secp256k1, address: string, message: string, sigHex: string): (r: Result<bool, string>)
    ensures r.Err? <==> RecoveredAddress(cr, message, sigHex).Err?
    ensures r == Ok(true) <==>
      RecoveredAddress(cr, message, sigHex).Ok? && Lower(RecoveredAddress(cr, message, sigHex).value) == Lower(address)
  {
    match RecoveredAddress(cr, message, sigHex)
    case Err(e) => Err(e)
    case Ok(recovered) => EqualFoldIffLower(recovered, address); Ok(EqualFold(recovered, address))
  }

  // ------------------------------------------------------------ ValidateTx

  datatype TxError =
    | InsufficientBalance(have: int, need: int)
    | NonPositiveAmount
    | StaleNonce(got: u64, current: u64)
    | MissingSignature
    | SignatureError(reason: string)
    | BadSignature

  /** The error's text, as the handler writes it into the 400 reply. */
  function ErrorText(e: TxError): string
  {
    match e
    case InsufficientBalance(have, need) =>
      "insufficient balance: have " + IntToDecimal(have) + ", need " + IntToDecimal(need)
    case NonPositiveAmount => "amount must be positive"
    case StaleNonce(got, current) =>
      "invalid nonce: got " + NatToDecimal(got) + ", expected > " + NatToDecimal(current)
    case MissingSignature => "missing signature"
    case SignatureError(reason) => "signature verification error: " + reason
    case BadSignature => "invalid signature"
  }

  /** Every condition ValidateTx demands, independent of the order it checks them in. */
  predicate Admissible(cr: Secp256k1, state: map<string, int>, nonces: map<string, u64>, tx: Transaction)
  {
    && BalanceOf(state, tx.from) >= tx.amount
    && tx.amount > 0
    && tx.nonce > NonceOf(nonces, tx.from)
    && tx.signature != ""
    && VerifySignature(cr, tx.from, SigningMessage(tx), tx.signature) == Ok(true)
  }

  /** The checks ValidateTx makes before it verifies the signature, all passed. */
  predicate PassesPreSignatureChecks(state: map<string, int>, nonces: map<string, u64>, tx: Transaction)
  {
    BalanceOf(state, tx.from) >= tx.amount && tx.amount > 0 && tx.nonce > NonceOf(nonces, tx.from) && tx.signature != ""
  }

  /**
    ValidateTx reads the balances and nonces and returns None (Go's nil) or
    the first failed check, in the order balance, amount, nonce, signature
    presence, signature validity.
  */
  function ValidateTx(cr: Secp256k1, state: map<string, int>, nonces: map<string, u64>, tx: Transaction): (r: Option<TxError>)
    ensures r.None? <==> Admissible(cr, state, nonces, tx)
    ensures r.Some? && r.value.InsufficientBalance? <==> BalanceOf(state, tx.from) < tx.amount
    ensures r.Some? && r.value.NonPositiveAmount? <==> BalanceOf(state, tx.from) >= tx.amount && tx.amount <= 0
    ensures r.Some? && r.value.StaleNonce? <==>
      BalanceOf(state, tx.from) >= tx.amount && tx.amount > 0 && tx.nonce <= NonceOf(nonces, tx.from)
    ensures r.Some? && r.value.MissingSignature? <==>
      BalanceOf(state, tx.from) >= tx.amount && tx.amount > 0 && tx.nonce > NonceOf(nonces, tx.from) && tx.signature == ""
    ensures r.Some? && r.value.InsufficientBalance? ==> r.value == InsufficientBalance(BalanceOf(state, tx.from), tx.amount)
    ensures r.Some? && r.value.StaleNonce? ==> r.value == StaleNonce(tx.nonce, NonceOf(nonces, tx.from))
    ensures r.Some? && r.value.SignatureError? <==>
      PassesPreSignatureChecks(state, nonces, tx) && VerifySignature(cr, tx.from, SigningMessage(tx), tx.signature).Err?
    ensures r.Some? && r.value.SignatureError? ==>
      r.value.reason == VerifySignature(cr, tx.from, SigningMessage(tx), tx.signature).error
    ensures r == Some(BadSignature) <==>
      PassesPreSignatureChecks(state, nonces, tx) && VerifySignature(cr, tx.from, SigningMessage(tx), tx.signature) == Ok(false)
  {
    var balance := BalanceOf(state, tx.from);
    if balance < tx.amount then Some(InsufficientBalance(balance, tx.amount))
    else if tx.amount <= 0 then Some(NonPositiveAmount)
    else
      var current := NonceOf(nonces, tx.from);
      if tx.nonce <= current then Some(StaleNonce(tx.nonce, current))
      else if tx.signature == "" then Some(MissingSignature)
      else
        match VerifySignature(cr, tx.from, SigningMessage(tx), tx.signature)
        case Err(e) => Some(SignatureError(e))
        case Ok(valid) => if !valid then Some(BadSignature) else None
  }

  /**
    Nothing on the accept path or in AddBlock advances a stored nonce, so an
    accepted transaction is accepted again whenever the sender's balance
    still covers it: the nonce check does not stop a replay.
  */
  lemma AcceptedTxReplays(cr: Secp256k1, before: map<string, int>, after: map<string, int>,
                          nonces: map<string, u64>, tx: Transaction)
    requires ValidateTx(cr, before, nonces, tx).None?
    requires BalanceOf(after, tx.from) >= tx.amount
    ensures ValidateTx(cr, after, nonces, tx).None?
  {
  }

  /** In particular, mining the transaction into a block does not stop its replay. */
  lemma MinedTxReplays(cr: Secp256k1, state: map<string, int>, nonces: map<string, u64>, tx: Transaction)
    requires ValidateTx(cr, state, nonces, tx).None?
    requires BalanceOf(state, tx.from) >= 2 * tx.amount
    ensures ValidateTx(cr, ApplyTxs(state, [tx]), nonces, tx).None?
  {
    assert [tx][..0] == [];
    assert BalanceOf(ApplyTxs(state, [tx]), tx.from) >= tx.amount;
  }

  // ------------------------------------------------------------ the faucet

  const FaucetAmount: int := 50

  /** time.Minute, in nanoseconds. */
  const Minute: int := 60_000_000_000

  /** A request within a minute of the address's last credited request is refused. */
  predicate RateLimited(last: map<string, int>, address: string, now: int)
  {
    address in last && now - last[address] < Minute
  }

  /** The faucet's timestamp map after one well-formed request. */
  function RecordRequest(last: map<string, int>, address: string, now: int): map<string, int>
  {
    if RateLimited(last, address, now) then last else last[address := now]
  }

  datatype FaucetRequest = FaucetRequest(address: string, time: int)

  /** The timestamp map after a run of well-formed requests, starting empty. */
  function FaucetLog(requests: seq<FaucetRequest>): map<string, int>
    decreases |requests|
  {
    if requests == [] then map[]
    else
      var r := requests[|requests| - 1];
      RecordRequest(FaucetLog(requests[..|requests| - 1]), r.address, r.time)
  }

  predicate Granted(requests: seq<FaucetRequest>, j: nat)
    requires j < |requests|
  {
    !RateLimited(FaucetLog(requests[..j]), requests[j].address, requests[j].time)
  }

  predicate NonDecreasingTimes(requests: seq<FaucetRequest>)
  {
    forall i, j :: 0 <= i < j < |requests| ==> requests[i].time <= requests[j].time
  }

  /** After a granted request, the address's recorded time never falls below it. */
  lemma {:induction false} GrantRemembered(requests: seq<FaucetRequest>, i: nat, k: nat)
    requires i < k <= |requests| && Granted(requests, i) && NonDecreasingTimes(requests)
    ensures requests[i].address in FaucetLog(requests[..k])
    ensures FaucetLog(requests[..k])[requests[i].address] >= requests[i].time
    decreases k
  {
    var a := requests[i].address;
    assert requests[..k][..k - 1] == requests[..k - 1];
    if k == i + 1 {
      assert requests[..k][k - 1] == requests[i];
    } else {
      GrantRemembered(requests, i, k - 1);
      assert requests[..k][k - 1] == requests[k - 1];
    }
  }

  /** With a clock that does not run backwards, two credits to one address are a minute apart. */
  lemma GrantsSpaced(requests: seq<FaucetRequest>, i: nat, j: nat)
    requires i < j < |requests| && NonDecreasingTimes(requests)
    requires requests[i].address == requests[j].address
    requires Granted(requests, i) && Granted(requests, j)
    ensures requests[j].time - requests[i].time >= Minute
  {
    GrantRemembered(requests, i, j);
  }

  // ------------------------------------------------------------ the server

  datatype SubmitReply = Accepted | Rejected(status: int, message: string)

  datatype FaucetReply = Credited(address: string, amount: int, balance: int) | Refused(status: int, message: string)

  class RPCServer {
    const chain: Chain
    const mempool: Mempool
    /** faucetRequests.last, a package-level map in the source. */
    var faucetLast: map<string, int>

    constructor (c: Chain, m: Mempool)
      ensures chain == c && mempool == m && faucetLast == map[]
    {
      chain := c;
      mempool := m;
      faucetLast := map[];
    }

    /** /submitTx: pushes the decoded transaction only when ValidateTx accepts it. */
    method SubmitTx(cr: Secp256k1, body: Option<Transaction>) returns (reply: SubmitReply)
      modifies mempool
      ensures body.None? ==> reply == Rejected(400, "invalid body") && mempool.txs == old(mempool.txs)
      ensures body.Some? && ValidateTx(cr, chain.state, chain.nonces, body.value).Some? ==>
        reply == Rejected(400, ErrorText(ValidateTx(cr, chain.state, chain.nonces, body.value).value))
        && mempool.txs == old(mempool.txs)
      ensures body.Some? && ValidateTx(cr, chain.state, chain.nonces, body.value).None? ==>
        reply == Accepted && mempool.txs == old(mempool.txs) + [body.value]
    {
      if body.None? {
        return Rejected(400, "invalid body");
      }
      var tx := body.value;
      var check := ValidateTx(cr, chain.state, chain.nonces, tx);
      if check.Some? {
        return Rejected(400, ErrorText(check.value));
      }
      mempool.Push(tx);
      reply := Accepted;
    }

    /**
      /api/faucet at time now (nanoseconds): method, body and address checks,
      then the per-address rate limit, then a credit of exactly 50. The
      timestamp map and the balance change only on a credit.
    */
    method Faucet(httpMethod: string, body: Option<string>, now: int) returns (reply: FaucetReply)
      modifies this, chain
      ensures chain.blocks == old(chain.blocks) && chain.nonces == old(chain.nonces)
      ensures reply.Refused? ==> faucetLast == old(faucetLast) && chain.state == old(chain.state)
      ensures httpMethod != "POST" ==> reply == Refused(405, "Invalid method")
      ensures httpMethod == "POST" && body.None? ==> reply == Refused(400, "{\"error\":\"Invalid JSON\"}")
      ensures httpMethod == "POST" && body == Some("") ==> reply == Refused(400, "{\"error\":\"Address is required\"}")
      ensures httpMethod == "POST" && body.Some? && body.value != "" && RateLimited(old(faucetLast), body.value, now) ==>
        reply == Refused(429, "{\"error\":\"Please wait 1 minute between faucet requests\"}")
      ensures httpMethod == "POST" && body.Some? && body.value != "" && !RateLimited(old(faucetLast), body.value, now) ==>
        && faucetLast == RecordRequest(old(faucetLast), body.value, now)
        && chain.state == old(chain.state)[body.value := BalanceOf(old(chain.state), body.value) + FaucetAmount]
        && reply == Credited(body.value, FaucetAmount, BalanceOf(chain.state, body.value))
    {
      if httpMethod != "POST" {
        return Refused(405, "Invalid method");
      }
      if body.None? {
        return Refused(400, "{\"error\":\"Invalid JSON\"}");
      }
      var address := body.value;
      if address == "" {
        return Refused(400, "{\"error\":\"Address is required\"}");
      }
      if address in faucetLast && now - faucetLast[address] < Minute {
        return Refused(429, "{\"error\":\"Please wait 1 minute between faucet requests\"}");
      }
      faucetLast := faucetLast[address := now];
      var balance := chain.AddBalance(address, FaucetAmount);
      reply := Credited(address, FaucetAmount, balance);
    }
  }
}
