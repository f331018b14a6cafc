# Maitrix faucet bot: a verified model of its claim, scheduling and wallet logic

The bot has three parts.

- A wallet generator fills an SQLite table with Ethereum accounts.
- A claimer walks that table page by page and asks a faucet contract on Arbitrum Sepolia (chain id 421614) for tokens once per wallet.
- A scheduler launches the claimer as a child process once per interval and keeps its run statistics in a JSON file.

This project models the logic of those three programs in Dafny and proves what they promise.

- `wallet_store.dfy` (module `WalletStore`) models `wallet_generator.py`.
  - The wallets table is a class `WalletTable` over the sequence of its rows in id order, with an AUTOINCREMENT counter and the last committed state.
  - `INSERT OR IGNORE` on the UNIQUE `address` column is the function `InsertedPairs`.
  - The batch loop of `generate_wallets` is a `while` loop, proved against `Replay`, a function that gives the table and the reported count after any sequence of batches, failed ones included.
  - A ghost commit log records the `processed` count at every `conn.commit()`.
- `faucet_claim.dfy` (module `FaucetClaim`) models `faucet_claim.py`.
  - Paging by `fetchmany` is a loop proved against `Chunks`.
  - The classification of one claim attempt (`get_nonce`, `build_claim_transaction`, `sign_and_send_transaction`, `process_wallet_claim`) is a set of functions over what the chain answers for an account.
  - `process_claims` is two nested loops, `ClaimPages` and `ClaimBatch`, with the wallet ceiling, an interrupt, and the per-batch and total counters.
- `scheduler.dfy` (module `Scheduler`) models `scheduler.py`.
  - It covers the child's command line, how the child parses it back, the file pre-checks, and the mapping of the child's exit.
  - The persisted statistics are modelled too.
  - The class `FaucetScheduler` holds the mutable flags and timestamps and has `should_run_now`, `load_run_stats`, `save_run_stats`, `wait_with_progress` and one turn of the main loop.
- `decimal.dfy` (module `Decimal`) gives Python's `str` of an integer and the `int` that reads it back, as used on both sides of the command line.
- `prelude.dfy` (module `Prelude`) holds `Option`, `Result`, minima and sums.

## Inputs

Everything outside the programs' own logic becomes a parameter.

- **The chain.** For each address, the chain answers with an `AccountChain` value. It holds:
  - the nonce lookup (a count, or an exception);
  - whether the contract's `build_transaction` raised;
  - whether signing raised;
  - the broadcast (a hash, or an exception);
  - the receipt wait (status and gas, `TimeExhausted`, or another exception).
- **The connection check.** A `ConnectionProbe`: unreachable, connected with a chain id and a block, or an exception.
- **Key generation.** `Account.create` becomes an input sequence of (address, key) pairs.
- **Database errors.** `failures` maps a batch number to the statement at which `executemany` raises.
- **The child process.** The existence of the three files becomes a `FileChecks` value. How `subprocess.run` ended becomes a `ChildExit`.
- **The statistics file.** How writing `scheduler_stats.json` ended becomes a `WriteOutcome`: written, `open` raised, or `json.dump` raised.
- **Time.** The clock is an integer number of seconds passed in as `now`/`later`.
- **Signals.** `KeyboardInterrupt` and the scheduler's signal handler become "arrives before claim k" or "arrives after sleep k" parameters.

## Model

| member | source | states |
|---|---|---|
| WalletStore.InsertedPairsSound | wallet_generator.py:55-62 | `INSERT OR IGNORE` stores only pairs of the batch. None of them has an address already in the table. No address is stored twice. Every address of the batch that was not present is stored. |
| WalletStore.InsertedPairsKeepFirst | wallet_generator.py:57-61 | Of several pairs of a batch with the same address, the one stored is the first, key included. The stored pairs keep the order of those first occurrences. |
| WalletStore.InsertedCount | wallet_generator.py:58-62 | The number of rows a batch adds, which `rowcount` reports, is the number of its distinct addresses not already in the table. |
| WalletStore.InsertedPairsAppend | wallet_generator.py:84-94 | Inserting two batches one after the other stores the same pairs as inserting their concatenation. |
| WalletStore.InsertedRowsPairs | wallet_generator.py:55-62 | The rows a batch adds hold exactly the pairs `INSERT OR IGNORE` stores, in the same order. |
| WalletStore.InsertedRowsIds | wallet_generator.py:55-62 | The ids of the added rows ascend and lie between the counter and the counter plus the number of statements. |
| WalletStore.InsertedRowsAtStatements | wallet_generator.py:55-62 | Every added row has the id of its statement: the counter plus the position in the batch of the first pair with its address. A statement ignored as a duplicate still uses up its id, so it leaves a gap. |
| WalletStore.InsertedRowsAppend | wallet_generator.py:84-94 | Inserting two batches one after the other adds the same rows, ids included, as inserting their concatenation. |
| WalletStore.InsertedRowsFit | wallet_generator.py:55-62 | The added rows number as many as the stored pairs. Their addresses are distinct and new to the table, and are exactly the batch's addresses not yet present. Their ids ascend from the counter. |
| WalletStore.AppendKeepsTableValid | wallet_generator.py:27-37 | Appending rows with fresh, distinct addresses and ascending ids from the AUTOINCREMENT counter on keeps the UNIQUE constraint, ascending ids and ids below the new counter. |
| WalletStore.AddressesOfAppend | wallet_generator.py:58-61 | The addresses of a grown table are the old addresses plus those of the appended rows. |
| WalletStore.ValidateArguments | wallet_generator.py:151-157 | Arguments are accepted exactly when `count > 0` and `batch_size > 0`. The count is checked first. |
| WalletStore.MultiplesOfMembers | wallet_generator.py:96-99 | A running total is kept as a commit point exactly when it is a multiple of the period. |
| WalletStore.BatchCountBounds | wallet_generator.py:84-94 | With all batches full but the last, and the last non-empty, the number of batches is the ceiling of `count / batch_size`. |
| WalletStore.InsertStepExtendsTable | wallet_generator.py:88-93 | After batches without error, this one included, the table is the initial table followed by the rows that inserting every key generated so far adds, and the counter has moved by one per key. |
| WalletStore.WalletTable.Open | wallet_generator.py:19-39 | Opening a table keeps its rows and counter and establishes the table invariant. |
| WalletStore.WalletTable.InsertWalletsBatch | wallet_generator.py:55-65 | The table becomes `InsertBatch` of the old table: the old rows are unchanged and the stored pairs of the applied statements are appended. Each applied statement uses up one AUTOINCREMENT id, so a row's id is its statement's and an ignored duplicate leaves a gap. The call returns their number, or 0 when the insert raises, in which case the statements before the error stay applied. The table invariant is kept. |
| WalletStore.Applied | wallet_generator.py:57-64 | A batch that raises after k statements has applied exactly its first `min(k, len)` pairs. One that does not raise has applied all of them. |
| WalletStore.InsertBatchGrows | wallet_generator.py:88-89 | A batch only appends rows, raises the counter, and adds between 0 and its own size to `total_inserted`. |
| WalletStore.ReplayStep | wallet_generator.py:84-91 | Running one more batch inserts the keys that come right after those already handled, with the failure given for that batch number. |
| WalletStore.ReplayWithoutFailures | wallet_generator.py:84-94 | Without database errors, running the batches stores exactly what one insert of all their keys would store, and `total_inserted` is the number of rows added. |
| WalletStore.CommitLogStep | wallet_generator.py:96-98 | After one more batch, the commit log holds one more entry exactly when `processed` has become a multiple of `5 * batch_size`. |
| WalletStore.ProgressStep | wallet_generator.py:84-98 | One batch, inserted and committed when due, keeps the loop accounting, the `Replay` state and the commit log in step. |
| WalletStore.WalletTable.Commit | wallet_generator.py:96-105 | The committed state becomes the current rows, and the `processed` count of the commit is appended to the commit log. |
| WalletStore.WalletTable.InsertNextBatch | wallet_generator.py:85-91 | The insert part of one loop turn takes `min(batch_size, remaining)` keys. The table and the count become `InsertBatch` of the previous ones, with the failure given for that batch number, errors included. |
| WalletStore.WalletTable.GenerateNextBatch | wallet_generator.py:84-99 | One loop turn takes `min(batch_size, remaining)` keys. The table and count become `InsertBatch` of the previous ones, errors included, and every loop invariant is kept. It commits, and logs the commit, exactly when `processed` becomes a multiple of `5 * batch_size`. Otherwise the committed state is unchanged. |
| WalletStore.WalletTable.GenerateWallets | wallet_generator.py:67-118 | Exactly `count` keys are handled, in batches that are full except the last, and their number is the ceiling of `count / batch_size`. `0 <= total_inserted <= processed`, so `duplicates_skipped` is never negative. Existing rows are kept. For any database errors, the table, the counter and `total_inserted` are those of `Replay` over the batches. Without errors, the table is the old table plus the rows inserting all the keys adds, the counter has moved by `count`, and the table grows by exactly `total_inserted`. The commit log is the multiples of `5 * batch_size` among the running totals, then the final commit, which leaves everything committed. |
| FaucetClaim.FlattenAppend | faucet_claim.py:134-138 | Concatenating the pages of two page lists is the concatenation of each list's pages. |
| FaucetClaim.PageSize | faucet_claim.py:134-136 | `fetchmany(n)` returns `min(n, rest)` rows for a positive `n` and every remaining row for any other `n`. |
| FaucetClaim.ChunksArePages | faucet_claim.py:128-138 | The pages, concatenated, are the rows in id order, and every page is non-empty. With a positive `batch_size` every page is at most that long and every page but the last is full. With any other size the whole table is one page. |
| FaucetClaim.GetWalletBatches | faucet_claim.py:128-143 | The `fetchmany` loop yields exactly the pages of `ChunksArePages`. |
| FaucetClaim.GetNonce | faucet_claim.py:145-151 | The nonce is the chain's transaction count, or 0 when the lookup raises. |
| FaucetClaim.BuildClaimTransaction | faucet_claim.py:153-167 | Without a contract it raises "Contract not initialized". Otherwise it raises exactly when `build_transaction` does. The transaction carries the sender, the nonce, the configured gas limit and price, and chain id 421614. |
| FaucetClaim.SignAndSendTransaction | faucet_claim.py:169-214 | Status 1 is success with hash and gas. Another status is failure with hash and "Transaction failed (status: 0)". A receipt timeout is success with hash and the timeout note. Any other exception is failure without hash, carrying the exception's message. |
| FaucetClaim.ProcessWalletClaim | faucet_claim.py:216-239 | The result is always a result for the wallet's address and never an exception. A failed build becomes a failure with "Unexpected error processing <address>: <message>". Otherwise the result is that of signing and sending. |
| FaucetClaim.ClaimMatchesOutcome | faucet_claim.py:169-239 | Against the outcome taxonomy: success is exactly confirmed or submitted-and-unconfirmed. A hash is present exactly when the broadcast returned one and then a receipt or a receipt timeout came back. Gas is present exactly when confirmed. Every failure carries an error. |
| FaucetClaim.CheckConnection | faucet_claim.py:107-126 | The check passes exactly when the endpoint is connected. A wrong chain id does not fail it. |
| FaucetClaim.SuccessesAndFailures | faucet_claim.py:279-286 | Successful plus failed claims is the number of claims made. |
| FaucetClaim.TalliesStep | faucet_claim.py:292-297 | The batch summaries of one more page are the old summaries plus that page's own success and failure counts. |
| FaucetClaim.ClaimLimit | faucet_claim.py:271-274 | `None` or 0 sets no ceiling, because the check is on truthiness. A positive ceiling lets `min(max_wallets, wallets)` claims through. A negative ceiling lets none through. |
| FaucetClaim.Attempts | faucet_claim.py:271-274 | A pass never attempts more claims than the ceiling allows. |
| FaucetClaim.StopRule | faucet_claim.py:271-274 | Before each claim, the interrupt or the ceiling stops the pass exactly when the attempted count is reached, and with the matching status. |
| FaucetClaim.ExhaustRule | faucet_claim.py:264 | A pass that attempts every wallet ends by exhausting the table. |
| FaucetClaim.SuccessRate | faucet_claim.py:319 | The final success rate lies between 0 and 100, is 0 when nothing was processed and 100 when everything succeeded, and times `processed` it equals `100 * successful`. |
| FaucetClaim.FinalSummaryAsWritten | faucet_claim.py:319 | The summary as written raises exactly when `total_processed` is 0. |
| FaucetClaim.AsWrittenSummaryRaises | faucet_claim.py:312-319 | The summary as written raises exactly for an empty table, a negative `max_wallets`, or an interrupt before the first claim. Otherwise it agrees with `SuccessRate`. |
| FaucetClaim.ClaimBatch | faucet_claim.py:271-290 | The inner loop claims an id-ordered prefix of the page, one result per wallet in order. The batch and total counters are the counts of successes and failures. A failed claim never stops the loop. It stops only at the attempt count, with `EndStatus`. |
| FaucetClaim.ClaimPages | faucet_claim.py:263-309 | The outer loop attempts exactly `Attempts` claims. They are the id-ordered prefix of all rows. The counters count the successes and failures of those results. There is one summary per finished page. The pass ends with `EndStatus`, inside the page where it stopped. |
| FaucetClaim.ProcessClaims | faucet_claim.py:241-321 | A failed connection check or a missing contract returns before any claim. Otherwise the pass claims the first `Attempts` wallets in id order and `processed == successful + failed`. Exactly `min(max_wallets, wallets)` are claimed for a positive ceiling and no interrupt. Each finished page gets its own tally. The summary rate is `SuccessRate`. |
| FaucetClaim.ClaimsStep | faucet_claim.py:277-286 | One more claim appends its result and adds one to exactly one of the counters. |
| FaucetClaim.ClaimsAppend | faucet_claim.py:264-271 | Claiming two runs of wallets in turn gives the results of claiming them together. |
| FaucetClaim.SuccessesAppend | faucet_claim.py:279-284 | Success and failure counts add up over concatenated results. |
| FaucetClaim.FlattenPrefix | faucet_claim.py:264 | The rows seen after one more page are the earlier rows plus that page. |
| FaucetClaim.ChunksStep | faucet_claim.py:134-138 | Each `fetchmany` takes the next `PageSize` rows and leaves the pages of the rest. |
| Decimal.NatText | scheduler.py:115 | `str` of a natural number is a non-empty string of decimal digits without a leading zero. |
| Decimal.ParseNat | faucet_claim.py:329 | Reading digits succeeds exactly on a non-empty string of decimal digits. |
| Decimal.NatTextRoundTrip | scheduler.py:115 | Reading back `str(n)` gives `n`. |
| Decimal.IntTextRoundTrip | scheduler.py:117 | Reading back `str(i)` gives `i`, negative numbers included. |
| Decimal.IntTextInjective | scheduler.py:122 | Different integers have different texts. |
| Scheduler.BuildFaucetCommand | scheduler.py:107-124 | The command is the interpreter, `faucet_claim.py` and 16 flag and value entries, 18 entries in all. Two more come when `max_wallets` is truthy. |
| Scheduler.ParsePair | faucet_claim.py:335 | The child parses flag/value pairs left to right, storing each value under its flag. |
| Scheduler.ParseAppendPair | faucet_claim.py:335 | A pair after any number of whole pairs is parsed last: its value is stored over whatever the earlier pairs gave. |
| Scheduler.LaterPairWins | faucet_claim.py:335 | A flag/value pair after any whole pairs gives the flag its value, overriding every earlier value, and leaves every other flag as it was. |
| Scheduler.ParsedCommand | scheduler.py:109-122 | Parsing the command's arguments gives exactly the configured flags: the ceiling only when truthy, the numbers as their `str`. |
| Scheduler.ConfigFlagsRead | faucet_claim.py:324-335 | Arguments that parse to the configured flags carry each configured value to the child. The numbers read back as the same numbers. |
| Scheduler.CommandCarriesConfig | scheduler.py:107-124 | The child reads every configured value from the command. It sees a ceiling exactly when the scheduler's `max_wallets` is truthy. |
| Scheduler.ChildKeepsCeiling | scheduler.py:121-122 | The child claims for as many wallets as the scheduler's `max_wallets` allows in the claimer's own ceiling rule. |
| Scheduler.RunFaucetClaiming | scheduler.py:126-181 | A missing `faucet_claim.py`, database or ABI file, checked in that order, fails the run without launching anything. Otherwise the built command is launched. The run succeeds exactly when the child exits with code 0. A timeout or an exception is a failure. |
| Scheduler.LoadedTime | scheduler.py:207-210 | A stored timestamp replaces the field. A missing or null one leaves it as it was. |
| Scheduler.SavedFile | scheduler.py:192-197 | A completed write stores the record. An `open` that raises leaves the old file. A `json.dump` that raises leaves a truncated file that no longer parses. |
| Scheduler.SaveThenRestart | scheduler.py:183-219 | Saving and loading back into a new scheduler restores the run count and both timestamps. The success flag is written but not read. |
| Scheduler.FaucetScheduler.constructor | scheduler.py:22-59 | A new scheduler is running, has no forced run, no runs and no timestamps. |
| Scheduler.FaucetScheduler.CalculateNextRunTime | scheduler.py:86-94 | The next run is `now` before the first run and `last_run_time + interval_hours` afterwards. |
| Scheduler.FaucetScheduler.ShouldRunNow | scheduler.py:96-105 | A pending `force_run` answers yes and is cleared, so it fires once. Otherwise the answer is yes exactly when no next run is set or it is due. |
| Scheduler.FaucetScheduler.SaveRunStats | scheduler.py:183-197 | A completed write gives the file the run count, both timestamps, the success flag and the interval. A failing `open` leaves the file unchanged. A failing `json.dump` leaves it unreadable, because `open(..., "w")` has already truncated it. The error is swallowed. |
| Scheduler.FaucetScheduler.LoadRunStats | scheduler.py:199-219 | A readable file sets the run count, or 0 when missing, and each timestamp it holds. An absent or unreadable file changes nothing. |
| Scheduler.FaucetScheduler.Start | scheduler.py:252-256 | After loading, the next run is recomputed from the loaded last run, overriding a stored next run. The schedule invariant then holds. |
| Scheduler.FaucetScheduler.WaitWithProgress | scheduler.py:221-243 | Nothing is slept for `seconds <= 0`. Every sleep is positive and at most `min(300, seconds / 10)`, and every sleep but the last is exactly that. While `running` stays true the sleeps add up to `seconds`. No sleep starts after the signal. Afterwards `running` is false exactly when it was false on entry or the signal arrived. |
| Scheduler.FaucetScheduler.RunIteration | scheduler.py:259-290 | A run, when due or forced, adds exactly 1 to `run_count` and stamps `last_run_time` with `now`. It sets `next_run_time = now + interval` and saves the statistics whatever the outcome, with the file as `SavedFile` gives it. Then the loop waits until the next run, in sleeps of at most `min(300, seconds / 10)`, all but the last exactly that, none after the signal, and with `running` as `WaitWithProgress` leaves it; or it sleeps 60 seconds. The schedule invariant is kept. |
| Scheduler.FaucetScheduler.PauseUntilNextRun | scheduler.py:282-290 | With the next run ahead of `later` the loop waits the difference in seconds through `WaitWithProgress`: every sleep is positive and at most `min(300, seconds / 10)`, every sleep but the last is exactly that, no sleep starts after the signal, and `running` is false afterwards exactly when it was false before or the signal arrived. Otherwise it sleeps 60 seconds and `running` is unchanged. |

## Left out

- Web3:
  - The transport, contract loading from the ABI file (`load_contract`) and ABI encoding are not modelled. The loaded contract is the flag `contractLoaded`.
  - `to_wei` is not modelled. The gas price in wei is a configured integer.
- Cryptography and randomness:
  - ECDSA signing and `Account.create` are not modelled. Signing appears only as "raised or not". The generated key pairs are an input.
- SQLite:
  - The `SELECT COUNT(*)` calls, the PRAGMAs, `created_at` and the connection handling are not modelled.
  - A database error in the paging query (faucet_claim.py:140-141) is not modelled. The pages are always the whole table.
  - Commits are a recorded snapshot of the rows plus a ghost log entry. The rollback after an exception (wallet_generator.py:110-113) is not modelled.
  - WalletStore.WalletTable.InsertWalletsBatch: `failAt` models an error that fails one statement and keeps the earlier ones applied. SQLite can instead roll back the whole open transaction on some errors (`SQLITE_FULL`, `SQLITE_IOERR`, `SQLITE_BUSY`, `SQLITE_NOMEM`); that case, which would also undo earlier uncommitted batches, is not modelled.
- Processes and files:
  - `subprocess.run`, the one-hour timeout, file existence and the JSON file are inputs or plain values.
  - Timestamps stand for their ISO-8601 text.
  - A stats file whose `run_count` is present but `null`, or whose timestamp text does not parse, is not modelled. Those would leave the fields part-updated or make a later `+= 1` raise.
- Logging and output:
  - Logging, `print` and progress messages are not modelled. So are the throughput and elapsed-time figures and the sleep between claims.
- Floating point:
  - `wait_with_progress` runs on exact reals, so the model makes no claim about IEEE rounding of `remaining -= sleep_interval`.
  - The float flags `--delay` and `--gas-price` travel as their `str` text.
  - The success rate is an exact real.
- Argument parsing:
  - `main` and its argparse setup are not modelled, apart from the validation at wallet_generator.py:151-157 (`ValidateArguments`).
  - The child's parsing of the command is reduced to a left-to-right store of flag/value pairs. `int` parsing is modelled as decimal digits with an optional leading `-`. Leading zeros are accepted. A `+` sign, blanks and underscores, which Python's `int` also accepts, are not modelled.
- Scheduler loop:
  - `run_scheduler`'s `while self.running` loop is modelled as `Start` plus repeated `RunIteration`. The loop itself and its `KeyboardInterrupt`/`Exception` handlers are not.
  - The signal handler (scheduler.py:77-84) is the `signalAfter` parameter of `WaitWithProgress`. A signal during the 60-second idle sleep is not modelled.
- FaucetClaim.PageSize: a `batch_size` of 0 or less, which `main` accepts from `--batch-size`, follows CPython's sqlite3 cursor, whose row counter never equals such a size, so one `fetchmany` returns every remaining row. A Python version that raises for such a size is not modelled.
- WalletStore.WalletTable.GenerateWallets: it requires `batch_size > 0`, which `main` enforces. With 0 the loop would raise `ZeroDivisionError` at the commit test, and with a negative size it would not terminate.
- FaucetClaim.ProcessClaims: an exception other than `KeyboardInterrupt` escaping a claim is not modelled, since `process_wallet_claim` catches every exception. The interrupt arrives only between claims.
- FaucetClaim.ProcessClaims: the final summary is modelled with the corrected `SuccessRate`, not the raising division (see Findings).
- FaucetClaim.ClaimPages: the interrupt arrives before a claim. In the source, an interrupt during the `delay_between_claims` sleep after a page's last wallet skips that page's summary (faucet_claim.py:288-297). After the table's last wallet the source then reports an interrupted pass, while the model reports an exhausted one with a summary for every page.
- Scheduler.FaucetScheduler.RunIteration: the source reads `datetime.now()` three times per turn: in `should_run_now` (scheduler.py:105), for `last_run_time` (scheduler.py:262) and for the wait (scheduler.py:283). The model's `now` stands for the first two readings and `later` for the third. Time passing between the first two is not modelled.

## Findings

| source | as written | input that shows it | evidently intended | confidence | as-written member | corrected member |
|---|---|---|---|---|---|---|
| faucet_claim.py:319 | the final summary computes `total_successful / total_processed` in the `finally` block that ends every pass | an empty wallet table; or `max_wallets = -1`; or an interrupt before the first claim: `total_processed == 0` and the division raises `ZeroDivisionError` out of `process_claims` | every pass that gets past its checks ends with a summary; the rate of a pass that processed nothing is 0 | not executed | FaucetClaim.FinalSummaryAsWritten | FaucetClaim.SuccessRate |

The as-written half is also stated, for every kind of pass, by `FaucetClaim.AsWrittenSummaryRaises`.
