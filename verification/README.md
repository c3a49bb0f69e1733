# Talos dispatch core, modelled in Dafny

This project models four separate pieces of the Talos agent payment system
and proves properties about them. The pieces do not call each other in the
code, so the model keeps them apart too:

- **Payment engine** (`engine.dfy`, module `Engine`). This is `MultiChainEngine`
  with its session guardrail. Two counters, `tx_count` and `session_loss`, gate
  every request. The session cap is checked first and the drawdown cap second.
  A rejected request returns `None` and changes nothing. An accepted request
  always goes through the simulation protocol, in LIVE mode too, because the
  live handler delegates to it. That protocol adds one to the count, adds the
  amount to the loss and returns a `sim_` signature. The class
  `MultiChainEngine` holds the counters and the RPC-client state. The pure
  functions `Check`, `Next` and `Replay` specify the guardrail, and the lemmas
  about them cover any sequence of requests.
- **Chain router** (`router.dfy`, module `Router`). This is `NetworkRouter`.
  An ONLINE preferred chain wins outright. Otherwise a scan in table order
  keeps the ONLINE chain with the strictly smallest fee below 999.0, and
  "SOLANA" is the fallback. `GetBestRoute` is the loop, proved against the
  arg-min predicate `FirstCheapest`.
- **Human approval gate** (`human_check.dfy`, module `Approval`). This is
  `HumanApproval`. `RequiresApproval` is the threshold test. `RequestApproval`
  writes a PENDING record, then polls until it sees APPROVED or REJECTED, and
  cleans up. The file system is replaced by a sequence of observations: the
  file is missing, the read fails, or a status is read. `FirstDecision` is
  the answer these observations determine.
- **Vault program** (`vault.dfy`, module `Vault`). These are the Anchor
  instructions `initialize`, `deposit` and `withdraw` over
  `VaultState { owner, balance: u64 }` and the lamports of the vault and its
  signer. `DepositSpec` and `WithdrawSpec` give each instruction's result,
  including its error order. The classes `VaultAccount` and `Wallet` update
  the accounts in place. The replay lemmas prove lamport conservation. They
  also prove that a covered vault never panics: its balance is backed by
  lamports.

`wrappers.dfy` defines `Option` (Python's `Optional`) and `Result` (Rust's
`Result`).

Python amounts are modelled as `real`. The guardrail limits come from
talos/config.py: `MaxTxPerSession = 5` and `MaxDailyLoss = 0.1`. `config.MODE`
stays a string. The config upper-cases any environment value. `send_request`
only tests for `"SIMULATION"`, and `start_session` only tests for `"LIVE"`.

Behaviour of the code as written that the model keeps:
- `get_best_route` has no failure case. Without an ONLINE preference and
  without an ONLINE fee below 999.0 it returns "SOLANA", whatever SOLANA's
  own status is (talos/core/router.py:19-28).
- `send_request` returns `None` for both guardrail refusals, and the reason
  goes only to the log (talos/payments/engine.py:71-79). The model still
  tells the two refusals apart in `Verdict`.
- The engine does not call the router or the approval gate.
- The docstring of `_execute_live_transaction` says it broadcasts a signed
  transaction (talos/payments/engine.py:109-110). Its body signs nothing,
  queries no balance and broadcasts nothing: it goes straight to the
  simulation protocol (talos/payments/engine.py:112-117).
- `_cleanup` swallows a failed `os.remove` and leaves the pending record on
  disk (talos/security/human_check.py:64-69). So the record is gone after
  cleanup only when the removal succeeds or the file was already gone.

## Model

| member | source | states |
|---|---|---|
| `Engine.SimSignature` | talos/payments/engine.py:97-99 | a produced signature is "sim_" followed by 84 letters or digits, 88 characters in all |
| `Engine.Check` | talos/payments/engine.py:71-79 | the session cap is decided first, so a request at the cap is refused for the session limit whatever its amount; the drawdown check applies only below the cap; a request is cleared iff count < 5 and loss + amount <= 0.1 |
| `Engine.Next` | talos/payments/engine.py:71-103 | a refused request leaves both counters unchanged; a cleared one adds exactly 1 to the count and exactly the amount to the loss; a cleared request leaves both counters within their caps, and caps that held keep holding |
| `Engine.ReplayAccounting` | talos/payments/engine.py:101-103 | after any sequence of requests, the count has grown by the number of accepted requests and the loss by the sum of their amounts |
| `Engine.ReplayWithinCaps` | talos/payments/engine.py:71-79 | from counters within the caps, any sequence of requests keeps count <= 5 and loss <= 0.1 |
| `Engine.SessionBudget` | talos/payments/engine.py:31-32 | from a fresh engine, at most 5 requests are accepted in a session and their amounts sum to at most 0.1 |
| `Engine.ExhaustedSessionRejectsAll` | talos/payments/engine.py:72-74 | once the count has reached the cap, every later request is refused and the counters never change again |
| `Engine.MultiChainEngine.constructor` | talos/payments/engine.py:28-32 | a new engine starts with count 0, loss 0.0 and no RPC client |
| `Engine.MultiChainEngine.StartSession` | talos/payments/engine.py:42-50 | an RPC client is opened only in LIVE mode; otherwise nothing changes |
| `Engine.MultiChainEngine.CloseSession` | talos/payments/engine.py:52-58 | the client is closed only in LIVE mode and only if one was created |
| `Engine.MultiChainEngine.SendRequest` | talos/payments/engine.py:60-87 | the counters move exactly as `Next` says, in every mode; a signature is returned iff the guardrail clears the request, and it is the simulated signature; caps that held before keep holding |
| `Engine.MultiChainEngine.ExecuteSimulationProtocol` | talos/payments/engine.py:89-106 | adds 1 to the count and the amount to the loss, and returns a well-formed "sim_" signature |
| `Engine.MultiChainEngine.ExecuteLiveTransaction` | talos/payments/engine.py:108-120 | the live handler makes the same state change as the simulation protocol and returns its signature |
| `Router.StatusOf` | talos/core/router.py:15 | the table lookup finds nothing iff no entry has that name; otherwise it returns the status of an entry with that name |
| `Router.FirstCheapestIsUnique` | talos/core/router.py:22-25 | the fee arg-min with first-seen tie-breaking picks at most one entry |
| `Router.NetworkRouter.constructor` | talos/core/router.py:7-12 | the built-in table is SOLANA (ONLINE, 0.000005), BASE (ONLINE, 0.0001), POLYGON (CONGESTED, 0.01), in that order and with distinct names |
| `Router.NetworkRouter.GetBestRoute` | talos/core/router.py:14-28 | a non-empty preferred chain whose entry is ONLINE is returned regardless of fees; otherwise the result is the first ONLINE chain whose fee is below 999.0 and no greater than any ONLINE fee, earlier chains of equal fee winning; if no ONLINE fee is below 999.0 the result is "SOLANA"; the table is not modified |
| `Router.BuiltInRoutes` | talos/core/router.py:8-28 | with the built-in table: no preference gives SOLANA, preference BASE gives BASE, preference POLYGON (congested) gives SOLANA |
| `Approval.PendingRecord` | talos/security/human_check.py:26-36 | the record written first has status PENDING and carries the given amount and recipient |
| `Approval.FirstDecision` | talos/security/human_check.py:39-62 | there is no answer iff no observation is a read APPROVED or REJECTED; otherwise the answer is true iff the first such observation is APPROVED |
| `Approval.FirstDecisionOfConcat` | talos/security/human_check.py:39-62 | observations after the first decisive one are ignored, and non-decisive ones before it (missing file, read error, any other status) change nothing |
| `Approval.FirstDecisionIsFirstDecisive` | talos/security/human_check.py:48-56 | the first APPROVED or REJECTED observation alone fixes the returned value |
| `Approval.PollUntilResolved` | talos/security/human_check.py:39-62 | the poll loop returns true iff the first decisive observation is APPROVED, false iff it is REJECTED, and keeps waiting when none is decisive |
| `Approval.HumanApproval.constructor` | talos/security/human_check.py:12-13 | the gate keeps the given risk threshold and has no pending record |
| `Approval.HumanApproval.Default` | talos/security/human_check.py:12 | the default risk threshold is 1.0 |
| `Approval.HumanApproval.RequiresApproval` | talos/security/human_check.py:15-18 | approval is required iff the amount is at least the risk threshold |
| `Approval.HumanApproval.RequestApproval` | talos/security/human_check.py:20-62 | the PENDING record is written; the returned value is the first decision of the observations; while undecided the record stays; once decided it is removed unless removal fails |
| `Approval.HumanApproval.Cleanup` | talos/security/human_check.py:64-69 | after cleanup no record exists, except that a failed removal is swallowed and leaves it in place |
| `Vault.DepositSpec` | talos_vault/programs/talos_vault/src/lib.rs:25-46 | deposit fails only through the system transfer or the checked add; the transfer fails iff the signer lacks the lamports or the vault's lamports would overflow; it panics iff the transfer succeeds and `balance + amount` overflows a u64; on success the balance and the vault's lamports grow by exactly the amount, the owner is unchanged and total lamports are conserved; a covered vault never panics and stays covered |
| `Vault.WithdrawSpec` | talos_vault/programs/talos_vault/src/lib.rs:48-62 | the result is Unauthorized iff the signer is not the owner, even when over-withdrawing; it is InsufficientFunds iff the owner asks for more than the balance; the transfer error never occurs; it succeeds iff the signer is the owner, the amount is within the balance, the vault holds the lamports and the signer's lamports do not overflow; it panics iff both checks pass and a lamport update would underflow or overflow; on success the balance drops by the amount without underflow, exactly the amount of lamports moves from the vault to the signer and the owner is unchanged; for a covered vault, success holds iff the signer is the owner and the amount is within the balance |
| `Vault.ReplayConservesLamports` | talos_vault/programs/talos_vault/src/lib.rs:25-62 | any sequence of deposits and withdrawals, failed ones included, conserves the vault's plus the signer's lamports and never changes the owner |
| `Vault.CoveredVaultNeverPanics` | talos_vault/programs/talos_vault/src/lib.rs:43-59 | from a covered vault, no sequence of deposits and withdrawals ever reaches a panicking `unwrap()` or lamport overflow, and the vault stays covered |
| `Vault.VaultAccount.Initialize` | talos_vault/programs/talos_vault/src/lib.rs:9-23 | the vault is bound to the signer's key with a zero balance |
| `Vault.VaultAccount.Deposit` | talos_vault/programs/talos_vault/src/lib.rs:25-46 | returns the status `DepositSpec` gives and leaves the accounts in the state it gives; a failure leaves every account unchanged |
| `Vault.VaultAccount.Withdraw` | talos_vault/programs/talos_vault/src/lib.rs:48-62 | returns the status `WithdrawSpec` gives and leaves the accounts in the state it gives; a failure leaves balance, owner and both lamport counts unchanged |

## Left out

- The signer abstraction in talos/core/wallet.py is not part of this model.
  It wraps a key-pair library whose behaviour is not visible, and its
  hardware variant only raises "not implemented". The engine's signer is
  therefore omitted.
- Loading talos/config.py from the environment and `.env` is I/O. The model
  keeps only the two guardrail limits and `MODE`.
- Floating point: amounts, fees and the 0.1 limit are exact reals. The model
  captures neither float rounding (for example `0.1 + 0.2 > 0.3`) nor NaN
  amounts, which pass both Python comparisons.
- `Engine.SendRequest`: the random draws of `random.choice` are a parameter
  (`picks`). The 0.6 s `asyncio.sleep`, logging and the RPC client object are
  not modelled, except for whether a client exists and is open.
- `Engine.SendRequest`: each request is one atomic step, so the caps are
  proved for serialized calls only. In the source, `await asyncio.sleep(0.6)`
  suspends between the guardrail check and the counter update. Two coroutines
  sharing one engine can both pass the check before either commits: from a
  count of 4, two concurrent requests end at 6. That interleaving is not
  modelled. The callers in the repository await one request at a time.
- `Engine.ExecuteLiveTransaction`: its `except Exception` branch cannot be
  reached in the model, because nothing in the simulation protocol can raise
  there.
- The router's `speed` field is carried in the table but never consulted,
  just as in the source.
- `Approval.HumanApproval.RequestApproval`: `print`, `time.sleep`, the JSON
  encoding and `time.time()`/`time.ctime()` are outside the model. The
  latter two become the `id` and `timestamp` parameters. The polls are a
  finite sequence, and the answer `None` means the source would still be
  polling. The source can block forever, and the model keeps that
  behaviour.
- `Approval.HumanApproval.RequestApproval`: the model always writes the
  PENDING record. In the source the `open` and `json.dump` of the write sit
  outside the `try`. A failed write therefore raises out of
  `request_approval` to the caller before any poll. That error path is not
  modelled.
- `Approval.HumanApproval.RequestApproval`: the field `pendingFile` holds the
  record the gate wrote. An approver's edits are seen only through
  observations. After a failed removal the real file holds the approver's
  status, not PENDING.
- The vault instructions: the cross-program invocation machinery, `emit!`
  events, `Clock::get`, and Anchor's account constraints are not modelled.
  Those constraints are the PDA seeds, the `init` payer debit and the account
  size. The post-instruction rent-exemption check of the runtime is not
  modelled either.
- `Vault.WithdrawSpec`, `Vault.DepositSpec`: the PDA seeds are left out, so
  the model describes the instruction handlers alone. In the deployed
  program, `deposit` and `withdraw` only accept the vault derived from
  `[b"vault", signer]` (lines 82 and 91 of
  talos_vault/programs/talos_vault/src/lib.rs), and `initialize` binds that
  vault's `owner` to the same signer (lines 12 and 71). There, a deposit by a non-owner
  and the `Unauthorized` error cannot happen. The model's `signer != owner`
  cases are reachable only by calling the handlers directly.
- `Vault.VaultAccount.Initialize`: the rent lamports the new account receives
  are a parameter. The payer's debit is not modelled.
- `Vault.WithdrawSpec`: the lamport updates on lib.rs lines 56-57 are modelled as
  overflow-checked. This matches Anchor's default release profile with
  `overflow-checks = true`. The workspace Cargo.toml is not part of this
  model.
- The interactive front-end mission_night.py, the LangChain adapter, the
  search demo google_service.py and the TypeScript smoke test are not part of
  this model.
