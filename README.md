# A verified model of a modular blockchain node and its dashboard logic

This project models the parts of a small proof-of-work ledger node and its
browser dashboard that make decisions. The node is written in Go and the
dashboard in TypeScript/JavaScript. The model is in Dafny, and every
contract named in the "Model" table below is proved by the Dafny verifier.

- **Ledger** (`Ledger`, from core/chain.go). A `Chain` class holds the block
  list, the balance map and the nonce map. `NewChain` seeds the genesis block
  and four demo balances. `AddBlock` appends a block and applies its
  transfers in order, without any check. The getters read a missing key as 0.
- **Transactions and identity** (`Core`, from core/tx.go and core/block.go).
  `Transaction` and `Block` are datatypes. `ID()` is the hex SHA-256 of the
  five fields run together.
- **Mempool** (`Pool`, from core/mempool.go). A `Mempool` class holds a FIFO
  sequence. Its operations are push, pop a prefix, snapshot, drop every entry
  whose ID matches a mined transaction, clear, and length.
- **Token module** (`Token`, from modules/token.go). A transfer checked only
  against the sender's balance.
- **Admission rules** (`Rpc`, from rpc/server.go):
  - the CORS allowlist decision;
  - the exact signing-message format;
  - `VerifySignature`, with key recovery left uninterpreted;
  - `ValidateTx` and its ordered checks;
  - the `/submitTx` accept path;
  - the `/api/faucet` handler and its per-address rate limit.
- **Proof of work** (`Pow`, from consensus/pow.go):
  - the header preimage and the difficulty-prefix check `ValidateBlock`;
  - the nonce search `mineBlock`;
  - `mine`, which stamps pending transactions, builds a block on the chain
    tip, appends it and clears the mempool.
- **Terminal** (`Terminal`, from dashboard/src/components/Terminal.tsx):
  - `trim` and the whitespace tokeniser;
  - case-insensitive verb dispatch;
  - the `--flag value` scan of `parseSendArgs`;
  - `send`'s usage check and wallet fallback;
  - command-history upkeep.
- **Polling hook** (`Polling`, from dashboard/src/hooks/usePolling.js). An
  event state machine over the closure's `mounted` and `timer` and the
  number of calls in flight. The events are mount, a call settling, the
  timer firing, and cleanup.
- **Client/node agreement** (`Interop`). The message the dashboard signs is
  `JSON.stringify({from, to, amount, nonce})`. The node rebuilds the same
  text with `fmt.Sprintf`. For integral amounts and nonces no larger than
  2^53 - 1 in magnitude, the two agree exactly when neither address needs a
  JSON escape.

## Modelling conventions

- **Crypto.** SHA-256, Keccak-256, `hexutil.Decode`, `Ecrecover` and the
  public-key-to-address step are function-typed parameters (module
  `Crypto`). Every result therefore holds for any choice of these
  primitives.
  - A hash takes the string whose UTF-8 bytes the Go code hashes.
  - The `%x` formatting of the 32-byte digest is modelled explicitly, as
    `Text.Hex`.
- **Integer widths.**
  - `Block.Number` and `Transaction.Nonce` are `u64`.
  - `Transaction.Amount` and timestamps are `i64`.
  - `last.Number + 1` wraps modulo 2^64, as Go's uint64 addition does.
- **Dashboard surroundings.** The terminal's environment is one `Env` value:
  `parseFloat`, the stored wallet, `JSON.parse` of it, `Date.now()`, and the
  sign, submit and balance calls. Each asynchronous call is a function
  returning `Ok` or `Err`, and `Err` stands for a thrown error.
- **Faucet time.** The faucet takes the current time in nanoseconds as a
  parameter.
- **Gaps the source leaves, filled explicitly:**
  - `Transaction` has no `Timestamp` field in core/tx.go, but
    consensus/pow.go reads and writes one. The model adds `timestamp`, and
    `ID()` does not read it.
  - `Chain.LatestBlock` is not defined in core/chain.go. It is taken to be
    the last block.
  - `Chain.AddBalance` is not defined either. It is taken to be
    `State[addr] += amount`, returning the new balance.

### Behaviour of the code worth noting

- **No overlapping polls, within one effect instance.** No tick fires while
  a call is out: `usePolling` sets the next timer only after the call
  settles (dashboard/src/hooks/usePolling.js:14-16).
- **Overlap on an interval change.** A new `interval` runs the old effect's
  cleanup, which does not cancel a call already out, and the new effect calls
  `fn` at once (dashboard/src/hooks/usePolling.js:9-26). Two calls to `fn`
  are then out together.
- **Polling errors.** The hook swallows an error thrown by `fn` and keeps
  polling; nothing records it (dashboard/src/hooks/usePolling.js:14).
- **Usage message.** `send` gives one fixed usage message whichever of
  `--to` and `--amount` is missing
  (dashboard/src/components/Terminal.tsx:96-98).
- **Faucet path.** The faucet is registered at `/api/faucet`
  (rpc/server.go:263).

## Model

| member | source | states |
|---|---|---|
| Text.NatToDecimal | core/tx.go:18 | `strconv.FormatUint`: at least one digit, only digits, and a leading '0' only for zero |
| Text.NatToDecimalRoundTrip | core/tx.go:18 | reading the decimal text back gives the number |
| Text.NatToDecimalInjective | core/tx.go:18 | distinct numbers print differently |
| Text.IntToDecimal | core/tx.go:18 | `strconv.Itoa`: a leading '-' exactly for negative values, followed by digits |
| Text.IntToDecimalRoundTrip | core/tx.go:18 | parsing the signed decimal text gives the integer back |
| Text.Hex | core/tx.go:19 | `%x` of bytes: two lower-case hex digits per byte |
| Text.HexRoundTrip | core/tx.go:19 | decoding the hex text gives the bytes back |
| Text.Repeat | consensus/pow.go:77 | `strings.Repeat(c, n)`: n copies of c |
| Text.Lower | rpc/server.go:90 | character-wise lower-casing that keeps the length |
| Text.EqualFoldIffLower | rpc/server.go:90 | `strings.EqualFold` holds iff the lower-cased strings are equal |
| Core.ID | core/tx.go:17-20 | an ID is always 64 lower-case hex characters |
| Core.IdIsDigestOfPreimage | core/tx.go:17-20 | the ID's hex digits decode to SHA-256 of from ++ to ++ decimal amount ++ decimal nonce ++ signature |
| Core.IdIgnoresTimestamp | core/tx.go:18 | transactions equal on the five hashed fields have equal IDs |
| Core.IdPreimage | core/tx.go:18 | the hashed text: from ++ to ++ decimal amount ++ decimal nonce ++ signature, no separators (its properties are the ID lemmas) |
| Core.IdResplitCollision | core/tx.go:18 | any two transactions whose from ++ to coincide and which agree on amount, nonce and signature share an ID |
| Core.IdBoundaryCollision | core/tx.go:18 | a witness: "ab" paying "c" and "a" paying "bc" are different transactions with one ID |
| Core.IdSignCollision | core/tx.go:18 | the signed amount's '-' can stand in for an address character, so two different transfers share an ID |
| Ledger.Transfer | core/chain.go:37-38 | one transaction's debit then credit, unchecked (its properties: TransferBalance, TransferPreservesSum) |
| Ledger.ApplyTxs | core/chain.go:36-39 | the transfers in order (its properties: ApplyTxsBalance, ApplyTxsUntouched, ApplyTxsPreservesSum) |
| Ledger.TransferBalance | core/chain.go:37-38 | one transfer debits from, credits to, and adds both as keys; a self-transfer leaves the balance as it was |
| Ledger.ApplyTxsBalance | core/chain.go:36-39 | after AddBlock's loop each balance has moved by exactly its net flow, with no check |
| Ledger.ApplyTxsUntouched | core/chain.go:36-39 | an address no transaction names keeps its balance |
| Ledger.OverdraftAccepted | core/chain.go:36-39 | an account with nothing can spend, and its balance goes negative |
| Ledger.TransferPreservesSum | core/chain.go:37-38 | a transfer keeps the sum of all balances |
| Ledger.ApplyTxsPreservesSum | core/chain.go:36-39 | applying a block's transactions keeps the sum of all balances |
| Ledger.GenesisBalances | core/chain.go:22-26 | exactly four balances: both demo addresses at 1000, "nandita" at 100, "aanya" at 0 |
| Ledger.Chain.constructor | core/chain.go:14-29 | NewChain: one genesis block (number 0, empty prevHash, timestamp 0), the genesis balances and no nonces |
| Ledger.Chain.LatestBlock | consensus/pow.go:41 | the chain tip, taken to be the last block |
| Ledger.Chain.AddBlock | core/chain.go:31-40 | the block is appended unchecked, the balances become the in-order application of its transfers, and the nonces are unchanged |
| Ledger.Chain.GetBalance | core/chain.go:42-46 | the stored balance, or 0 for an unknown address; nothing is changed |
| Ledger.Chain.GetNonce | core/chain.go:48-52 | the stored nonce, or 0 for an unknown address; nothing is changed |
| Ledger.Chain.SetNonce | core/chain.go:54-58 | only the nonce entry for addr changes |
| Ledger.Chain.AddBalance | rpc/server.go:296 | the faucet credit: balance += amount, with the new balance returned and nothing else changed |
| Pool.IdSet | core/mempool.go:47-50 | the set of IDs of the mined transactions |
| Pool.Filtered | core/mempool.go:56-63 | the pool entries, in order, whose ID is not in the set (its properties: the Filtered lemmas) |
| Pool.FilteredAppend | core/mempool.go:56-63 | filtering distributes over concatenation, so survivors keep their relative order |
| Pool.FilteredCount | core/mempool.go:56-63 | an entry whose ID is listed vanishes with all its duplicates; any other keeps its multiplicity |
| Pool.FilteredKeepsOnlyUnlisted | core/mempool.go:56-63 | no survivor has a listed ID |
| Pool.FilteredIdempotent | core/mempool.go:43-64 | ClearMined twice with the same list equals once |
| Pool.FilteredNothing | core/mempool.go:43-46 | filtering by no IDs keeps the pool |
| Pool.ClearMinedEmptyKeeps | core/mempool.go:43-46 | ClearMined with an empty list is a no-op |
| Pool.Mempool.constructor | core/mempool.go:10 | NewMempool: an empty pool |
| Pool.Mempool.Push | core/mempool.go:12-16 | the transaction is appended at the end |
| Pool.Mempool.PopMany | core/mempool.go:18-30 | n ≤ 0 or an empty pool pops nothing; otherwise the first min(n, len) entries, with popped ++ rest == old pool |
| Pool.Mempool.PendingTransactions | core/mempool.go:32-41 | a copy equal to the pool, the pool unchanged |
| Pool.Mempool.ClearMined | core/mempool.go:43-64 | the pool becomes exactly its entries, in order, whose ID is not the ID of any mined transaction |
| Pool.Mempool.Clear | core/mempool.go:66-70 | the pool is empty |
| Pool.Mempool.Len | core/mempool.go:72-76 | the number of pending transactions |
| Token.TokenModule.Name | modules/token.go:12 | the module name, "token" |
| Token.TokenModule.Init | modules/token.go:13 | Init only stores the chain |
| Token.TokenModule.HandleTransaction | modules/token.go:16-24 | an insufficient balance gives "insufficient funds" and changes nothing; otherwise one unchecked transfer and no error; blocks and nonces are never touched |
| Rpc.OriginAllowed | rpc/server.go:29-43 | the scan finds the origin iff it is one of the four allowlisted ones |
| Rpc.EnableCors | rpc/server.go:24-65 | an allowlisted origin is echoed, an empty one gets "*", any other gets no Allow-Origin header; three fixed headers are always set; OPTIONS is answered with status 200 without calling the handler; any other method is handed on with no status written |
| Rpc.SigningMessage | rpc/server.go:117 | the signed text: from and to verbatim between quotes, amount and nonce in decimal, no whitespace (its properties: SigningMessageRoundTrip and the collision lemma) |
| Rpc.SigningMessageRoundTrip | rpc/server.go:116-117 | for quote-free addresses, from, to, amount and nonce can be read back from the signed message |
| Rpc.SigningMessageDeterminesFields | rpc/server.go:117 | two quote-free transactions with the same signed message agree on the four fields |
| Rpc.QuotedAddressesCollide | rpc/server.go:117 | addresses are inserted unescaped, so two different transfers can share one signed message |
| Rpc.VerifySignature | rpc/server.go:76-91 | an error exactly when decoding, recovery or key parsing fails; true exactly when the recovered address equals the given one up to case |
| Rpc.ValidateTx | rpc/server.go:93-127 | nil iff balance ≥ amount, amount > 0, nonce > stored nonce, signature non-empty and verified; otherwise the first failed check in that order decides the error. The balance error carries the sender's balance and the amount, and the nonce error the transaction's nonce and the stored one. After the earlier checks pass, a verification error gives SignatureError with that error's text, and a mismatched recovered address gives BadSignature |
| Rpc.ErrorText | rpc/server.go:97-123 | the 400 reply text for each ValidateTx error |
| Rpc.AcceptedTxReplays | rpc/server.go:93-127 | nothing advances a stored nonce, so an accepted transaction is accepted again while the balance covers it |
| Rpc.MinedTxReplays | rpc/server.go:105-109 | mining a transaction does not stop its replay |
| Rpc.GrantRemembered | rpc/server.go:285-293 | after a credited request, the address's recorded time never falls below it |
| Rpc.GrantsSpaced | rpc/server.go:285-293 | with a clock that does not run backwards, two credits to one address are at least a minute apart |
| Rpc.RPCServer.constructor | rpc/server.go:72-74 | New: the given chain and mempool, and no faucet history |
| Rpc.RPCServer.SubmitTx | rpc/server.go:149-162 | an undecodable body or a ValidateTx error gives 400 with that text and an unchanged pool; otherwise the transaction is pushed |
| Rpc.RPCServer.Faucet | rpc/server.go:263-309 | non-POST 405, bad JSON or empty address 400, within a minute of the last credit 429; otherwise now is recorded and exactly 50 credited; a refusal changes nothing |
| Pow.BlockPreimage | consensus/pow.go:75 | the header text "%d%s%d%d" of number, prevHash, nonce and timestamp; the transactions are not in it |
| Pow.HeaderHash | consensus/pow.go:84-85 | the header hash is 64 lower-case hex characters |
| Pow.ValidateBlock | consensus/pow.go:73-78 | valid iff the first diff characters of the recomputed header hash are '0' |
| Pow.ValidateBlockIgnoresHashAndTxs | consensus/pow.go:75 | validity depends only on number, prevHash, timestamp and nonce: the stored hash and the transactions are not read |
| Pow.SolvedIsValid | consensus/pow.go:54-56 | a block whose stored nonce solves its header passes ValidateBlock |
| Pow.MineBlock | consensus/pow.go:80-90 | the smallest nonce ≥ 1 whose header hash starts with diff zeros, with that hash |
| Pow.StampTransactions | consensus/pow.go:43-47 | transactions with timestamp 0 get the block's time, others keep theirs, and nothing else changes |
| Pow.PoW.constructor | consensus/pow.go:20-22 | NewPoW stores the chain, the mempool and the difficulty |
| Pow.PoW.Mine | consensus/pow.go:36-64 | an empty mempool gives false and no change; otherwise: one block on the tip (number + 1, prevHash = tip hash) holding the stamped transactions, passing ValidateBlock, balances applied, and an empty mempool |
| Terminal.Trim | dashboard/src/components/Terminal.tsx:29 | `trim()`: the command between the bounds TrimBounds states (its property: TrimBlank) |
| Terminal.TrimBounds | dashboard/src/components/Terminal.tsx:29 | trim's bounds: only whitespace before and after, and non-whitespace at both ends of what remains |
| Terminal.TrimBlank | dashboard/src/components/Terminal.tsx:29-30 | the trimmed command is empty iff the command is all whitespace |
| Terminal.Tokens | dashboard/src/components/Terminal.tsx:48 | splitting on whitespace yields non-empty, whitespace-free tokens |
| Terminal.TokensOfJoin | dashboard/src/components/Terminal.tsx:48 | splitting words joined by single spaces gives the words back |
| Terminal.NonBlankHasToken | dashboard/src/components/Terminal.tsx:48-49 | a non-blank command has a first token |
| Terminal.FlagTakesNextToken | dashboard/src/components/Terminal.tsx:73-87 | a flag takes the next token as its value whatever it looks like, and a later flag overrides an earlier one |
| Terminal.TrailingFlagGetsDefault | dashboard/src/components/Terminal.tsx:76-85 | a flag with no value sets '' (amount: parseFloat('0')) |
| Terminal.OtherTokenSkipped | dashboard/src/components/Terminal.tsx:74-87 | a token that is not one of the four exact flags is skipped |
| Terminal.NoFlagsNoArgs | dashboard/src/components/Terminal.tsx:71 | with no flags, the defaults are returned |
| Terminal.SendArgsOf | dashboard/src/components/Terminal.tsx:70-91 | the in-order flag scan, with a trailing flag given the missing value (its properties: the four scan lemmas above) |
| Terminal.ParseSendArgs | dashboard/src/components/Terminal.tsx:70-91 | the index loop computes the in-order flag scan |
| Terminal.Credentials | dashboard/src/components/Terminal.tsx:100-107 | supplied from and key are kept; each missing one comes from the stored wallet; no stored wallet fails with "No wallet found…" |
| Terminal.ExecuteSend | dashboard/src/components/Terminal.tsx:93-119 | an empty `to`, or a zero or NaN amount, fails with the usage message; then credential errors; success iff signing and submitting succeed, answering "Transaction submitted successfully: …" |
| Terminal.ExecuteBalance | dashboard/src/components/Terminal.tsx:121-124 | "Balance for <address>: <balance>", or the fetch's error |
| Terminal.Verb | dashboard/src/components/Terminal.tsx:49 | the lower-cased first token (its property: VerbIgnoresCase) |
| Terminal.VerbIgnoresCase | dashboard/src/components/Terminal.tsx:49 | the first token matches a verb iff it equals the verb ignoring case |
| Terminal.Entry | dashboard/src/components/Terminal.tsx:34-41 | a history entry carries the command, the result or the message, and error exactly when the command threw |
| Terminal.Outcome | dashboard/src/components/Terminal.tsx:51-67 | the verb switch as a relation between a command and its result (its property: OutcomeUnique) |
| Terminal.OutcomeUnique | dashboard/src/components/Terminal.tsx:51-67 | the verb switch covers every verb, so a command has one outcome |
| Terminal.TerminalComponent.constructor | dashboard/src/components/Terminal.tsx:12 | the history starts empty |
| Terminal.TerminalComponent.ParseAndExecuteCommand | dashboard/src/components/Terminal.tsx:47-68 | send, balance (usage error with fewer than two tokens, otherwise only parts[1] is used), help, clear (which empties the history), or "Unknown command: …" |
| Terminal.TerminalComponent.ExecuteCommand | dashboard/src/components/Terminal.tsx:24-45 | a blank command leaves the history unchanged; any other appends exactly one entry for the trimmed command and its outcome; after clear, the history is that single entry |
| Polling.Mount | dashboard/src/hooks/usePolling.js:9-20 | on mount there is no timer and fn is called at once |
| Polling.Step | dashboard/src/hooks/usePolling.js:12-25 | one event of the state machine (its properties: StepInv and the lemmas below) |
| Polling.MountInv | dashboard/src/hooks/usePolling.js:9-20 | a fresh effect satisfies the invariant |
| Polling.StepInv | dashboard/src/hooks/usePolling.js:12-25 | every event keeps the invariant: at most one call out, no timer while a call is out or after unmount, and a mounted effect always has a call out or a timer pending |
| Polling.RunInv | dashboard/src/hooks/usePolling.js:12-25 | the invariant holds after any sequence of events |
| Polling.NoOverlap | dashboard/src/hooks/usePolling.js:12-16 | within one effect instance, an event starts at most one call, and only when none is out |
| Polling.ThrowSwallowed | dashboard/src/hooks/usePolling.js:14 | a call that throws is handled exactly as one that returns |
| Polling.DelayFromCompletion | dashboard/src/hooks/usePolling.js:14-16 | the next timer is due interval after the call settles, and an earlier tick does nothing |
| Polling.TickCallsCurrent | dashboard/src/hooks/usePolling.js:13-14 | a due timer calls the fn current at that moment |
| Polling.RetiredStaysQuiet | dashboard/src/hooks/usePolling.js:13-25 | an unmounted effect without a timer starts no call and sets no timer, whatever happens |
| Polling.NothingAfterCleanup | dashboard/src/hooks/usePolling.js:13-25 | after cleanup no call starts and no timer is set, even when a call out settles later |
| Polling.FirstRender | dashboard/src/hooks/usePolling.js:5-20 | the first render: fnRef holds fn and the effect is mounted |
| Polling.Render | dashboard/src/hooks/usePolling.js:5-26 | a re-render updates fnRef and restarts the effect only when interval changed (its properties: NewFnNoRestart, NewIntervalRestarts) |
| Polling.Tick | dashboard/src/hooks/usePolling.js:13-14 | a timer firing inside the hook, calling what fnRef holds |
| Polling.NewFnNoRestart | dashboard/src/hooks/usePolling.js:5-26 | a new fn with the same interval keeps the running loop and is called at the next tick |
| Polling.NewIntervalRestarts | dashboard/src/hooks/usePolling.js:26 | a new interval cleans up the old effect and mounts a fresh one that calls fn at once |
| Polling.IntervalChangeOverlaps | dashboard/src/hooks/usePolling.js:9-26 | a new interval while a call is out leaves that call out in the retired effect and starts a second in the new one |
| Polling.PollingEffect.constructor | dashboard/src/hooks/usePolling.js:9-20 | the closure's state after mount |
| Polling.PollingEffect.Settle | dashboard/src/hooks/usePolling.js:14-16 | a settling call moves the closure's state as the Settle event does |
| Polling.PollingEffect.Fire | dashboard/src/hooks/usePolling.js:13-14 | the timer callback moves the closure's state as the TimerFired event does |
| Polling.PollingEffect.Cleanup | dashboard/src/hooks/usePolling.js:22-25 | cleanup moves the closure's state as the Cleanup event does |
| Interop.EscapeChar | rpc/server.go:116-117 | JSON.stringify leaves a character unchanged iff it is not '"', not '\\' and not a control character |
| Interop.EscapePlain | rpc/server.go:116-117 | a string with nothing to escape is written as itself |
| Interop.Escape | rpc/server.go:116-117 | JSON.stringify's escaping of a string, character by character (its properties: EscapePlain, EscapeLength) |
| Interop.EscapeLength | rpc/server.go:116-117 | escaping never shortens a string, and keeps its length exactly when nothing needs escaping |
| Interop.NumberJson | dashboard/src/components/Terminal.tsx:114 | an integer no larger than 2^53 - 1 in magnitude prints as its decimal digits, NaN as null, and any other number is not modelled (None) |
| Interop.Stringify | dashboard/src/components/Terminal.tsx:114 | JSON.stringify of the payload, keys in the order from, to, amount, nonce; None when amount or nonce is beyond NumberJson (its properties: StringifyIsSigningMessage, EscapedAddressDiverges) |
| Interop.PayloadFor | dashboard/src/components/Terminal.tsx:114 | the payload the dashboard builds for a transaction |
| Interop.StringifyIsSigningMessage | rpc/server.go:116-117 | for addresses with nothing to escape and an amount and nonce no larger than 2^53 - 1 in magnitude, JSON.stringify of the payload is exactly the message the node verifies |
| Interop.EscapedAddressDiverges | rpc/server.go:116-117 | when either address needs an escape, JSON.stringify of the payload is never the message the node verifies (for an amount or nonce beyond 2^53 - 1 this holds only because Stringify is None there) |

## Left out

- Locks (`sync.Mutex`/`RWMutex` in the chain, the mempool and the faucet
  map): every operation is modelled as sequential.
- `PoW.Start`, `Stop` and their goroutine and `running` flag; `ProposeBlock`,
  which returns an empty block and is not used.
- What is left out of `mine`:
  - the wall clock, which is a parameter;
  - the `db.InsertBlock` write and the log lines;
  - the window between reading the pending transactions and `Clear`, in
    which a concurrent `Push` would be lost.
- Pow.MineBlock and Pow.PoW.Mine require that some nonce in [1, 2^64)
  solves the header. In the source, `nonce++` wraps from 2^64-1 to 0, so a
  header that only nonce 0 solves returns (0, hash) after 2^64 tries, and a
  header no nonce solves loops forever; the model excludes both cases. A
  difficulty outside 0..64 makes `hs[:diff]` panic; the model's difficulty
  type excludes it.
- HTTP plumbing: mux registration, JSON decoding and encoding of bodies, the
  `Content-Type` header, `http.Error`'s trailing newline, and
  `ListenAndServe`. A handler receives the decoded body, or a value standing
  for a decoding failure, and returns its reply.
- Other endpoints: `/`, `/balance`, `/blocks`, `/mempool`, `/health` and
  `/healthz`, which only read or answer a fixed text; `/addBalance`, which
  credits through `Chain.AddBalance` after its own checks; and
  `/api/resetBalance`, which calls `Chain.SetBalance`, a method not defined
  in core/chain.go.
- `/broadcastBlock` and `/receiveBlock` pass a block received over the
  network to `AddBlock` without `ValidateBlock` or any other check
  (rpc/server.go:186-207). The model has Ledger.Chain.AddBlock, which is
  unchecked as well, but not these two handlers.
- `db.UpsertWalletBalance` after a faucet credit, and everything in db/.
- core/persistence.go, which is file I/O and `encoding/json`.
- The internals of the crypto primitives. These are SHA-256 (FIPS 180-4),
  Keccak-256, secp256k1 recovery (SEC 2 v2, section 2.4.1) and
  `hexutil.Decode`.
- Go's `int` wrap-around on balances: balances are unbounded integers.
- Text.Lower, Text.EqualFoldIffLower and Rpc.VerifySignature fold ASCII
  letters only. `strings.EqualFold` and `toLowerCase` also fold other
  Unicode letters.
- Terminal.Tokens and Terminal.TrimBounds: JavaScript's whitespace set is
  written out character by character. Lone UTF-16 surrogates are not
  representable as Dafny characters.
- Terminal.ExecuteSend: `parseFloat` is a parameter. Infinities and
  floating-point arithmetic are not modelled; a number is NaN or a real.
  `JSON.parse` of the stored wallet is a parameter too, and a wallet without
  an `address` or `privateKey` field (undefined in JavaScript) is not
  modelled.
- Interop.NumberJson covers NaN and integers no larger than 2^53 - 1
  (Number.MAX_SAFE_INTEGER) in magnitude only. Other numbers give None: their
  text is not modelled. This covers fractions, exponent notation and
  infinities. It also covers integers above 2^53 - 1, which JavaScript
  prints as the shortest digits that round-trip padded with zeros (2^60
  prints as 1152921504606847000). So Interop.StringifyIsSigningMessage says
  nothing about such amounts or nonces, and Interop.EscapedAddressDiverges
  holds for them only because Stringify is None.
- Terminal.TerminalComponent.ExecuteCommand: React's batching of
  `setHistory([])` followed by `addToHistory` is taken to run in that order.
- The `loading` flag and `handleSubmit`'s loading gate, the input box, the
  scroll effect and `getHelpText`'s layout are left out. The help text is a
  constant.
- dashboard/src/utils/crypto.ts (signing) and dashboard/src/lib/rpc.ts
  (fetch), as well as TxForm and the view components. The terminal's sign
  and submit calls are parameters.
- `Date.now()` as the transaction nonce, which is a parameter. Nothing
  fetches a ledger nonce, as in the source.
- Rpc.RPCServer.constructor gives each server an empty faucet map. In the
  source the map is package-level (rpc/server.go:19-22), so every server in
  one process shares it.
- Token.TokenModule.HandleTransaction requires that Init has stored a
  chain. Calling it before Init dereferences a nil chain and panics in Go.
- The default `interval = 5000` of `usePolling` is not modelled: the
  interval is always a parameter.
