/**
  The dashboard's command terminal (dashboard/src/components/Terminal.tsx):
  trimming and whitespace tokenising, case-insensitive verb dispatch, the
  `--flag value` scan of `send`, the wallet fallback, and the history list
  the component keeps.

  Everything the component reaches outside itself (parseFloat, localStorage,
  JSON.parse, Date.now, signing, the RPC calls) comes in through an Env
  value; an awaited call that throws is an Err carrying the message shown.
*/
module Terminal {
  import opened Wrappers
  import opened Text

  // ------------------------------------------------------------ whitespace

  /** JavaScript's WhiteSpace and LineTerminator characters (String.prototype.trim, \s). */
  predicate IsJsSpace(c: char)
  {
    c == '\t' || c == '\n' || c == '\U{000B}' || c == '\U{000C}' || c == '\r' || c == ' '
    || c == '\U{00A0}' || c == '\U{1680}' || ('\U{2000}' <= c <= '\U{200A}')
    || c == '\U{2028}' || c == '\U{2029}' || c == '\U{202F}' || c == '\U{205F}'
    || c == '\U{3000}' || c == '\U{FEFF}'
  }

  predicate AllSpace(s: string)
  {
    forall i :: 0 <= i < |s| ==> IsJsSpace(s[i])
  }

  predicate NoSpace(s: string)
  {
    forall i :: 0 <= i < |s| ==> !IsJsSpace(s[i])
  }

  /** The index of the first non-whitespace character at or after i (|s| if none). */
  function SkipSpace(s: string, i: nat): (k: nat)
    requires i <= |s|
    ensures i <= k <= |s| && (k == |s| || !IsJsSpace(s[k]))
    ensures forall m :: i <= m < k ==> IsJsSpace(s[m])
    decreases |s| - i
  {
    if i < |s| && IsJsSpace(s[i]) then SkipSpace(s, i + 1) else i
  }

  /** The end of s[lo..j] once its trailing whitespace is dropped. */
  function BackSpace(s: string, lo: nat, j: nat): (k: nat)
    requires lo <= j <= |s|
    ensures lo <= k <= j && (k == lo || !IsJsSpace(s[k - 1]))
    ensures forall m :: k <= m < j ==> IsJsSpace(s[m])
    decreases j - lo
  {
    if lo < j && IsJsSpace(s[j - 1]) then BackSpace(s, lo, j - 1) else j
  }

  /**
    Where trim() cuts s: everything before i and from j on is whitespace,
    the kept part s[i..j] starts and ends with a non-whitespace character,
    and it is empty only when s is blank.
  */
  function TrimBounds(s: string): (b: (nat, nat))
    ensures b.0 <= b.1 <= |s|
    ensures forall m :: 0 <= m < b.0 ==> IsJsSpace(s[m])
    ensures forall m :: b.1 <= m < |s| ==> IsJsSpace(s[m])
    ensures b.0 < b.1 ==> !IsJsSpace(s[b.0]) && !IsJsSpace(s[b.1 - 1])
    ensures b.0 == b.1 ==> b.0 == |s|
  {
    var i := SkipSpace(s, 0);
    (i, BackSpace(s, i, |s|))
  }

  /** String.prototype.trim. */
  function Trim(s: string): string
  {
    s[TrimBounds(s).0..TrimBounds(s).1]
  }

  /** trim() is empty exactly for a blank string. */
  lemma TrimBlank(s: string)
    ensures Trim(s) == [] <==> AllSpace(s)
  {
    var (i, j) := TrimBounds(s);
    if i < j {
      assert !IsJsSpace(s[i]);
    }
  }

  // ---------------------------------------------------------------- tokens

  /** The length of the run of non-whitespace characters that s starts with. */
  function WordLen(s: string): (n: nat)
    ensures n <= |s| && NoSpace(s[..n])
    ensures n == |s| || IsJsSpace(s[n])
    decreases |s|
  {
    if s == [] || IsJsSpace(s[0]) then 0 else 1 + WordLen(s[1..])
  }

  /**
    The maximal runs of non-whitespace characters of s, in order. For a
    trimmed, non-blank string this is what `split(/\s+/)` returns.
  */
  function Tokens(s: string): (ws: seq<string>)
    ensures forall k :: 0 <= k < |ws| ==> ws[k] != [] && NoSpace(ws[k])
    decreases |s|
  {
    if s == [] then []
    else if IsJsSpace(s[0]) then Tokens(s[1..])
    else
      var n := WordLen(s);
      [s[..n]] + Tokens(s[n..])
  }

  /** The words joined by single spaces. */
  function JoinSpaced(ws: seq<string>): string
    decreases |ws|
  {
    if ws == [] then ""
    else if |ws| == 1 then ws[0]
    else ws[0] + " " + JoinSpaced(ws[1..])
  }

  lemma WordLenOfWord(w: string, rest: string)
    requires NoSpace(w)
    requires rest == [] || IsJsSpace(rest[0])
    ensures WordLen(w + rest) == |w|
    decreases |w|
  {
    if w != [] {
      assert (w + rest)[1..] == w[1..] + rest;
      WordLenOfWord(w[1..], rest);
    } else {
      assert w + rest == rest;
    }
  }

  /** Tokenising undoes joining: the tokens of a spaced sentence are its words. */
  lemma {:induction false} TokensOfJoin(ws: seq<string>)
    requires forall k :: 0 <= k < |ws| ==> ws[k] != [] && NoSpace(ws[k])
    ensures Tokens(JoinSpaced(ws)) == ws
    decreases |ws|
  {
    if |ws| == 1 {
      WordLenOfWord(ws[0], "");
      assert ws[0] + "" == ws[0];
      assert ws[0][..|ws[0]|] == ws[0];
      assert ws[0][|ws[0]|..] == [];
    } else if |ws| > 1 {
      var w, rest := ws[0], " " + JoinSpaced(ws[1..]);
      assert JoinSpaced(ws) == w + rest;
      WordLenOfWord(w, rest);
      assert (w + rest)[..|w|] == w;
      assert (w + rest)[|w|..] == rest;
      assert rest[1..] == JoinSpaced(ws[1..]);
      TokensOfJoin(ws[1..]);
      assert Tokens(rest) == Tokens(JoinSpaced(ws[1..]));
    }
  }

  /** A non-blank string has a first token, so parts[0] is a real word. */
  lemma {:induction false} NonBlankHasToken(s: string)
    requires !AllSpace(s)
    ensures |Tokens(s)| >= 1
    decreases |s|
  {
    if IsJsSpace(s[0]) {
      assert !AllSpace(s[1..]) by {
        var k :| 0 <= k < |s| && !IsJsSpace(s[k]);
        assert s[1..][k - 1] == s[k];
      }
      NonBlankHasToken(s[1..]);
    }
  }

  // ------------------------------------------------------------- the values

  /** A JavaScript number as parseFloat yields it; infinities are not modelled. */
  datatype JsNumber = NaN | Num(value: real)

  /** `!amount` is false exactly for NaN and zero. */
  predicate Truthy(n: JsNumber)
  {
    n.Num? && n.value != 0.0
  }

  datatype SendArgs = SendArgs(to: string, amount: JsNumber, from: string, privateKey: string)

  /** The object signed and submitted, with keys in the order from, to, amount, nonce. */
  datatype Payload = Payload(from: string, to: string, amount: JsNumber, nonce: int)

  datatype Wallet = Wallet(address: string, privateKey: string)

  /** What the component reads from and calls in its surroundings. */
  datatype Env = Env(
    parseFloat: string -> JsNumber,
    storedWallet: Option<string>,
    parseWallet: string -> Result<Wallet, string>,
    now: int,
    sign: (Payload, string) -> Result<string, string>,
    submit: (Payload, string) -> Result<string, string>,
    balanceOf: string -> Result<string, string>)

  // ----------------------------------------------------------- --flag scan

  datatype Flag = ToFlag | AmountFlag | FromFlag | KeyFlag

  /** The four exact, case-sensitive flags. */
  function FlagOf(t: string): Option<Flag>
  {
    if t == "--to" then Some(ToFlag)
    else if t == "--amount" then Some(AmountFlag)
    else if t == "--from" then Some(FromFlag)
    else if t == "--key" then Some(KeyFlag)
    else None
  }

  function FlagText(f: Flag): (t: string)
    ensures FlagOf(t) == Some(f)
  {
    match f
    case ToFlag => "--to"
    case AmountFlag => "--amount"
    case FromFlag => "--from"
    case KeyFlag => "--key"
  }

  const NoArgs: SendArgs := SendArgs("", Num(0.0), "", "")

  /** `field = v || ''`, and `amount = parseFloat(v || '0')`; v is "" when missing. */
  function Assign(pf: string -> JsNumber, a: SendArgs, f: Flag, v: string): SendArgs
  {
    match f
    case ToFlag => a.(to := v)
    case AmountFlag => a.(amount := pf(if v == "" then "0" else v))
    case FromFlag => a.(from := v)
    case KeyFlag => a.(privateKey := v)
  }

  /** The fields read so far, and the flag whose value is the next token. */
  datatype ScanState = ScanState(args: SendArgs, pending: Option<Flag>)

  /** The scan state after the tokens of args, one at a time. */
  function Scan(pf: string -> JsNumber, args: seq<string>): ScanState
    decreases |args|
  {
    if args == [] then ScanState(NoArgs, None)
    else
      var st := Scan(pf, args[..|args| - 1]);
      var t := args[|args| - 1];
      match st.pending
      case Some(f) => ScanState(Assign(pf, st.args, f, t), None)
      case None => ScanState(st.args, FlagOf(t))
  }

  /** What parseSendArgs returns: a trailing flag gets the missing value. */
  function SendArgsOf(pf: string -> JsNumber, args: seq<string>): SendArgs
  {
    var st := Scan(pf, args);
    match st.pending
    case Some(f) => Assign(pf, st.args, f, "")
    case None => st.args
  }

  lemma ScanStep(pf: string -> JsNumber, args: seq<string>, i: nat)
    requires i < |args|
    ensures Scan(pf, args[..i + 1]) ==
      match Scan(pf, args[..i]).pending
      case Some(f) => ScanState(Assign(pf, Scan(pf, args[..i]).args, f, args[i]), None)
      case None => ScanState(Scan(pf, args[..i]).args, FlagOf(args[i]))
  {
    assert args[..i + 1][..i] == args[..i];
  }

  /**
    A flag takes the token after it as its value whatever that token looks
    like, and a later occurrence overrides what earlier ones set.
  */
  lemma FlagTakesNextToken(pf: string -> JsNumber, p: seq<string>, f: Flag, v: string)
    requires Scan(pf, p).pending == None
    ensures Scan(pf, p + [FlagText(f), v]) == ScanState(Assign(pf, Scan(pf, p).args, f, v), None)
    ensures SendArgsOf(pf, p + [FlagText(f), v]) == Assign(pf, Scan(pf, p).args, f, v)
  {
    var q := p + [FlagText(f), v];
    assert q[..|q| - 1] == p + [FlagText(f)];
    assert (p + [FlagText(f)])[..|p|] == p;
  }

  /** A flag with nothing after it sets its field to '' (amount: parseFloat('0')). */
  lemma TrailingFlagGetsDefault(pf: string -> JsNumber, p: seq<string>, f: Flag)
    requires Scan(pf, p).pending == None
    ensures SendArgsOf(pf, p + [FlagText(f)]) == Assign(pf, Scan(pf, p).args, f, "")
    ensures f == AmountFlag ==> SendArgsOf(pf, p + [FlagText(f)]).amount == pf("0")
    ensures f == ToFlag ==> SendArgsOf(pf, p + [FlagText(f)]).to == ""
  {
    assert (p + [FlagText(f)])[..|p|] == p;
  }

  /** A token that is not a flag, in flag position, is skipped. */
  lemma OtherTokenSkipped(pf: string -> JsNumber, p: seq<string>, t: string)
    requires Scan(pf, p).pending == None
    requires FlagOf(t) == None
    ensures Scan(pf, p + [t]) == Scan(pf, p)
  {
    assert (p + [t])[..|p|] == p;
  }

  /** With no flags at all, the defaults come back. */
  lemma {:induction false} NoFlagsNoArgs(pf: string -> JsNumber, args: seq<string>)
    requires forall k :: 0 <= k < |args| ==> FlagOf(args[k]) == None
    ensures Scan(pf, args) == ScanState(NoArgs, None)
    ensures SendArgsOf(pf, args) == NoArgs
    decreases |args|
  {
    if args != [] {
      NoFlagsNoArgs(pf, args[..|args| - 1]);
    }
  }

  /** parseSendArgs: the index loop over args with `args[++i]`. */
  method ParseSendArgs(pf: string -> JsNumber, args: seq<string>) returns (r: SendArgs)
    ensures r == SendArgsOf(pf, args)
  {
    var to, amount, from, privateKey := "", Num(0.0), "", "";
    var i := 0;
    while i < |args|
      invariant 0 <= i <= |args| + 1
      invariant i <= |args| ==> Scan(pf, args[..i]) == ScanState(SendArgs(to, amount, from, privateKey), None)
      invariant i == |args| + 1 ==> SendArgs(to, amount, from, privateKey) == SendArgsOf(pf, args)
    {
      ScanStep(pf, args, i);
      if i + 1 < |args| {
        ScanStep(pf, args, i + 1);
      } else {
        assert args[..i + 1] == args;
      }
      if args[i] == "--to" {
        i := i + 1;
        to := if i < |args| then args[i] else "";
      } else if args[i] == "--amount" {
        i := i + 1;
        amount := pf(if i < |args| && args[i] != "" then args[i] else "0");
      } else if args[i] == "--from" {
        i := i + 1;
        from := if i < |args| then args[i] else "";
      } else if args[i] == "--key" {
        i := i + 1;
        privateKey := if i < |args| then args[i] else "";
      }
      i := i + 1;
    }
    if i == |args| {
      assert args[..i] == args;
    }
    r := SendArgs(to, amount, from, privateKey);
  }

  // ------------------------------------------------------------------ send

  const SendUsage: string := "Usage: send --to <address> --amount <number> [--from <address> --key <privateKey>]"
  const NoWallet: string := "No wallet found. Create one first or provide --from and --key"
  const SubmittedPrefix: string := "Transaction submitted successfully: "

  /** localStorage.getItem('wallet') is null or empty. */
  predicate NoStoredWallet(env: Env)
  {
    env.storedWallet == None || env.storedWallet == Some("")
  }

  /**
    The sender and key send uses: both as given when both were given;
    otherwise each missing one from the stored wallet, each given one kept.
  */
  function Credentials(env: Env, args: SendArgs): (r: Result<(string, string), string>)
    ensures args.from != "" && args.privateKey != "" ==> r == Ok((args.from, args.privateKey))
    ensures (args.from == "" || args.privateKey == "") && NoStoredWallet(env) ==> r == Err(NoWallet)
    ensures r.Ok? && args.from != "" ==> r.value.0 == args.from
    ensures r.Ok? && args.privateKey != "" ==> r.value.1 == args.privateKey
    ensures r.Ok? && args.from == "" ==>
      !NoStoredWallet(env) && env.parseWallet(env.storedWallet.value).Ok?
      && r.value.0 == env.parseWallet(env.storedWallet.value).value.address
    ensures r.Ok? && args.privateKey == "" ==>
      !NoStoredWallet(env) && env.parseWallet(env.storedWallet.value).Ok?
      && r.value.1 == env.parseWallet(env.storedWallet.value).value.privateKey
  {
    if args.from != "" && args.privateKey != "" then Ok((args.from, args.privateKey))
    else if NoStoredWallet(env) then Err(NoWallet)
    else
      match env.parseWallet(env.storedWallet.value)
      case Err(e) => Err(e)
      case Ok(w) =>
        Ok(((if args.from != "" then args.from else w.address),
            (if args.privateKey != "" then args.privateKey else w.privateKey)))
  }

  /** The payload send signs: the caller's sender and recipient, nonce Date.now(). */
  function PayloadOf(env: Env, args: SendArgs, from: string): Payload
  {
    Payload(from, args.to, args.amount, env.now)
  }

  /**
    executeSend: the usage check first, then the credentials, then signing
    and submitting, each failure ending the command with its message.
  */
  function ExecuteSend(env: Env, args: SendArgs): (r: Result<string, string>)
    ensures args.to == "" || !Truthy(args.amount) ==> r == Err(SendUsage)
    ensures args.to != "" && Truthy(args.amount) && Credentials(env, args).Err? ==>
      r == Err(Credentials(env, args).error)
    ensures r.Ok? <==>
      && args.to != "" && Truthy(args.amount)
      && Credentials(env, args).Ok?
      && env.sign(PayloadOf(env, args, Credentials(env, args).value.0), Credentials(env, args).value.1).Ok?
      && env.submit(PayloadOf(env, args, Credentials(env, args).value.0),
                    env.sign(PayloadOf(env, args, Credentials(env, args).value.0), Credentials(env, args).value.1).value).Ok?
    ensures r.Ok? ==>
      var p := PayloadOf(env, args, Credentials(env, args).value.0);
      var sig := env.sign(p, Credentials(env, args).value.1).value;
      r.value == SubmittedPrefix + env.submit(p, sig).value
  {
    if args.to == "" || !Truthy(args.amount) then Err(SendUsage)
    else
      match Credentials(env, args)
      case Err(e) => Err(e)
      case Ok((from, key)) =>
        var payload := PayloadOf(env, args, from);
        match env.sign(payload, key)
        case Err(e) => Err(e)
        case Ok(sig) =>
          match env.submit(payload, sig)
          case Err(e) => Err(e)
          case Ok(reply) => Ok(SubmittedPrefix + reply)
  }

  // ------------------------------------------------------ the other verbs

  const BalanceUsage: string := "Usage: balance <address>"

  function ExecuteBalance(env: Env, address: string): (r: Result<string, string>)
    ensures env.balanceOf(address).Ok? <==> r.Ok?
    ensures r.Ok? ==> r.value == "Balance for " + address + ": " + env.balanceOf(address).value
    ensures r.Err? ==> r.error == env.balanceOf(address).error
  {
    match env.balanceOf(address)
    case Ok(b) => Ok("Balance for " + address + ": " + b)
    case Err(e) => Err(e)
  }

  /** getHelpText, after its trim(). */
  const HelpText: string :=
    "Available commands:\n"
    + "  send --to <address> --amount <number> [--from <address> --key <privateKey>]\n"
    + "    Send tokens to an address. Uses saved wallet if --from/--key not provided.\n"
    + "\n"
    + "  balance <address>\n"
    + "    Check balance of an address.\n"
    + "\n"
    + "  help\n"
    + "    Show this help message.\n"
    + "\n"
    + "  clear\n"
    + "    Clear terminal history.\n"
    + "\n"
    + "Examples:\n"
    + "  send --to 0x742d35Cc6634C0532925a3b844Bc454e4438f44e --amount 10\n"
    + "  balance 0x742d35Cc6634C0532925a3b844Bc454e4438f44e"

  function UnknownCommand(cmd: string): string
  {
    "Unknown command: " + cmd + ". Type 'help' for available commands."
  }

  /** The verb: the first token, lower-cased ("" when there is none, as split gives). */
  function Verb(parts: seq<string>): string
  {
    if parts == [] then "" else Lower(parts[0])
  }

  /** Verbs match whatever their case. */
  lemma VerbIgnoresCase(w: string, rest: seq<string>, verb: string)
    requires Lower(verb) == verb
    ensures Verb([w] + rest) == verb <==> EqualFold(w, verb)
  {
    EqualFoldIffLower(w, verb);
  }

  // --------------------------------------------------------------- history

  /** One history line; error is true exactly when the command threw. */
  datatype CommandResult = CommandResult(command: string, output: string, error: bool)

  function Entry(command: string, r: Result<string, string>): (e: CommandResult)
    ensures e.command == command && (e.error <==> r.Err?)
    ensures e.output == (if r.Ok? then r.value else r.error)
  {
    match r
    case Ok(out) => CommandResult(command, out, false)
    case Err(msg) => CommandResult(command, msg, true)
  }

  /**
    What a command yields, by its lower-cased verb: send parses the flags
    after the verb, balance needs an address and reads only the first one,
    help and clear answer with fixed text, anything else is unknown.
  */
  predicate Outcome(env: Env, command: string, r: Result<string, string>)
  {
    var parts := Tokens(command);
    && (Verb(parts) == "send" ==> r == ExecuteSend(env, SendArgsOf(env.parseFloat, parts[1..])))
    && (Verb(parts) == "balance" && |parts| < 2 ==> r == Err(BalanceUsage))
    && (Verb(parts) == "balance" && |parts| >= 2 ==> r == ExecuteBalance(env, parts[1]))
    && (Verb(parts) == "help" ==> r == Ok(HelpText))
    && (Verb(parts) == "clear" ==> r == Ok("Terminal cleared"))
    && (Verb(parts) !in {"send", "balance", "help", "clear"} ==> r == Err(UnknownCommand(Verb(parts))))
  }

  /** Every verb is covered, so the outcome of a command is one result only. */
  lemma OutcomeUnique(env: Env, command: string, r1: Result<string, string>, r2: Result<string, string>)
    requires Outcome(env, command, r1) && Outcome(env, command, r2)
    ensures r1 == r2
  {
  }

  class TerminalComponent {
    var history: seq<CommandResult>

    constructor ()
      ensures history == []
    {
      history := [];
    }

    /**
      parseAndExecuteCommand on a trimmed command: dispatch on the
      lower-cased first token; `clear` empties the history before its
      result is recorded.
    */
    method ParseAndExecuteCommand(env: Env, command: string) returns (r: Result<string, string>)
      modifies this
      ensures Outcome(env, command, r)
      ensures history == (if Verb(Tokens(command)) == "clear" then [] else old(history))
    {
      var parts := Tokens(command);
      var cmd := Verb(parts);
      if cmd == "send" {
        var args := ParseSendArgs(env.parseFloat, parts[1..]);
        r := ExecuteSend(env, args);
      } else if cmd == "balance" {
        if |parts| < 2 {
          return Err(BalanceUsage);
        }
        r := ExecuteBalance(env, parts[1]);
      } else if cmd == "help" {
        r := Ok(HelpText);
      } else if cmd == "clear" {
        history := [];
        r := Ok("Terminal cleared");
      } else {
        r := Err(UnknownCommand(cmd));
      }
    }

    /**
      executeCommand: a blank command does nothing; any other appends
      exactly one entry for the trimmed command, after `clear`'s reset.
    */
    method ExecuteCommand(env: Env, command: string)
      modifies this
      ensures AllSpace(command) ==> history == old(history)
      ensures !AllSpace(command) ==>
        exists r: Result<string, string> ::
          && Outcome(env, Trim(command), r)
          && (Verb(Tokens(Trim(command))) == "clear" ==> history == [Entry(Trim(command), Ok("Terminal cleared"))])
          && (Verb(Tokens(Trim(command))) != "clear" ==> history == old(history) + [Entry(Trim(command), r)])
    {
      var trimmed := Trim(command);
      TrimBlank(command);
      if trimmed == [] {
        return;
      }
      var r := ParseAndExecuteCommand(env, trimmed);
      history := history + [Entry(trimmed, r)];
    }
  }
}
