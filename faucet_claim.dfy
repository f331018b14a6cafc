/**
 * The claim pipeline of `faucet_claim.py`: paging the wallet table, building and
 * submitting one `requestTokens()` transaction per wallet, classifying what came back,
 * and the batch driver that walks the pages under an optional ceiling.
 *
 * The chain is an oracle: for every address, `AccountChain` says what each remote call
 * made on behalf of that address returns or raises.
 */
module FaucetClaim {
  import opened Prelude
  import WalletStore

  type Row = WalletStore.Row

  /** Arbitrum Sepolia, the chain id every claim transaction carries. */
  const ChainId: int := 421614

  const ContractNotInitialized: string := "Contract not initialized"
  const RevertedMessage: string := "Transaction failed (status: 0)"
  const ReceiptTimeoutMessage: string := "Receipt timeout (transaction may still succeed)"

  /** The outcome of claiming for one wallet. */
  datatype ClaimResult = ClaimResult(
    address: string,
    success: bool,
    txHash: Option<string>,
    error: Option<string>,
    gasUsed: Option<int>)

  /** The claimer's configuration once `load_contract` has run. */
  datatype Claimer = Claimer(
    contractLoaded: bool,
    contractAddress: string,
    gasLimit: int,
    gasPriceWei: int)

  /** The fields of the transaction dict that web3's `build_transaction` returns. */
  datatype Transaction = Transaction(
    from: string,
    to: string,
    nonce: int,
    gas: int,
    gasPrice: int,
    chainId: int)

  datatype NonceLookup = NonceOk(count: nat) | NonceRaised(message: string)
  datatype Broadcast = Sent(hash: string) | SendRaised(message: string)
  /** What `wait_for_transaction_receipt` does: a receipt, `TimeExhausted`, or another exception. */
  datatype ReceiptWait = Mined(status: int, gasUsed: int) | TimedOut | ReceiptRaised(message: string)

  /**
   * What the remote calls made for one address do: the nonce lookup, the contract's
   * `build_transaction` (an error message when it raises), signing (likewise), the
   * broadcast and the receipt wait.
   */
  datatype AccountChain = AccountChain(
    nonce: NonceLookup,
    buildError: Option<string>,
    signError: Option<string>,
    broadcast: Broadcast,
    receipt: ReceiptWait)

  /** What `check_connection` observes: no connection, a chain id and a block, or an exception. */
  datatype ConnectionProbe = Unreachable | Connected(chainId: int, latestBlock: int) | ProbeRaised(message: string)

  // ---------------------------------------------------------------------------
  // Paging

  /** The rows of all pages, in page order. */
  function Flatten<T>(pages: seq<seq<T>>): seq<T> {
    if pages == [] then [] else pages[0] + Flatten(pages[1..])
  }

  lemma {:induction false} FlattenAppend<T>(a: seq<seq<T>>, b: seq<seq<T>>)
    ensures Flatten(a + b) == Flatten(a) + Flatten(b)
    decreases |a|
  {
    if a != [] {
      assert (a + b)[1..] == a[1..] + b;
      FlattenAppend(a[1..], b);
    } else {
      assert a + b == b;
    }
  }

  /**
   * How many of the `left` remaining rows `fetchmany(batchSize)` returns. sqlite3's
   * cursor stops once its row counter equals the size, which a size of zero or less
   * never does, so such a size returns every remaining row.
   */
  function PageSize(batchSize: int, left: nat): (n: nat)
    ensures n <= left
    ensures batchSize > 0 ==> n == Min(batchSize, left)
    ensures batchSize <= 0 ==> n == left
  {
    if batchSize > 0 then Min(batchSize, left) else left
  }

  /** The pages `fetchmany(batchSize)` returns on a cursor over `rows`. */
  function Chunks<T>(rows: seq<T>, batchSize: int): seq<seq<T>>
    decreases |rows|
  {
    if rows == [] then []
    else
      var cut := PageSize(batchSize, |rows|);
      [rows[..cut]] + Chunks(rows[cut..], batchSize)
  }

  /**
   * Together the pages are `rows` in order and none is empty. With a positive size,
   * none is longer than `batchSize` and only the last one may be shorter; with any
   * other size the whole table comes as one page.
   */
  lemma {:induction false} ChunksArePages<T>(rows: seq<T>, batchSize: int)
    ensures var pages := Chunks(rows, batchSize);
      && Flatten(pages) == rows
      && (forall j :: 0 <= j < |pages| ==> 0 < |pages[j]|)
      && (batchSize > 0 ==> forall j :: 0 <= j < |pages| ==> |pages[j]| <= batchSize)
      && (batchSize > 0 ==> forall j :: 0 <= j < |pages| - 1 ==> |pages[j]| == batchSize)
      && (batchSize <= 0 ==> pages == if rows == [] then [] else [rows])
    decreases |rows|
  {
    if rows != [] {
      var cut := PageSize(batchSize, |rows|);
      var rest := Chunks(rows[cut..], batchSize);
      ChunksArePages(rows[cut..], batchSize);
      var pages := [rows[..cut]] + rest;
      assert pages[1..] == rest;
      assert rows == rows[..cut] + rows[cut..];
      forall j | 0 < j < |pages|
        ensures pages[j] == rest[j - 1]
      {
      }
      if batchSize <= 0 {
        assert rows[cut..] == [] && rows[..cut] == rows;
      }
    }
  }

  /**
   * `get_wallet_batches`: read `SELECT ... ORDER BY id` with `fetchmany(batchSize)`
   * until it returns an empty list.
   */
  method GetWalletBatches(rows: seq<Row>, batchSize: int) returns (pages: seq<seq<Row>>)
    ensures pages == Chunks(rows, batchSize)
  {
    pages := [];
    var cursor := 0;
    while true
      invariant 0 <= cursor <= |rows|
      invariant pages + Chunks(rows[cursor..], batchSize) == Chunks(rows, batchSize)
      decreases |rows| - cursor
    {
      var batch := rows[cursor..cursor + PageSize(batchSize, |rows| - cursor)];
      if batch == [] {
        assert rows[cursor..] == [];
        break;
      }
      ChunksStep(rows, cursor, batchSize);
      assert pages + [batch] + Chunks(rows[cursor + |batch|..], batchSize)
          == pages + ([batch] + Chunks(rows[cursor + |batch|..], batchSize));
      pages := pages + [batch];
      cursor := cursor + |batch|;
    }
  }

  // ---------------------------------------------------------------------------
  // One claim

  /** `get_nonce`: the transaction count, or 0 when the lookup raises. */
  function GetNonce(lookup: NonceLookup): (nonce: nat)
    ensures lookup.NonceOk? ==> nonce == lookup.count
    ensures lookup.NonceRaised? ==> nonce == 0
  {
    match lookup
    case NonceOk(count) => count
    case NonceRaised(_) => 0
  }

  /**
   * `build_claim_transaction`: raises "Contract not initialized" without a contract;
   * otherwise the transaction sends from `sender` with `nonce`, the configured gas
   * limit and price, to the contract, on `ChainId` (unless web3 itself raises).
   */
  function BuildClaimTransaction(claimer: Claimer, sender: string, nonce: int, buildError: Option<string>)
    : (r: Result<Transaction>)
    ensures !claimer.contractLoaded ==> r == Err(ContractNotInitialized)
    ensures r.Ok? <==> claimer.contractLoaded && buildError.None?
    ensures r.Ok? ==>
      && r.value.from == sender && r.value.nonce == nonce
      && r.value.gas == claimer.gasLimit && r.value.gasPrice == claimer.gasPriceWei
      && r.value.to == claimer.contractAddress && r.value.chainId == ChainId
  {
    if !claimer.contractLoaded then Err(ContractNotInitialized)
    else if buildError.Some? then Err(buildError.value)
    else Ok(Transaction(sender, claimer.contractAddress, nonce, claimer.gasLimit, claimer.gasPriceWei, ChainId))
  }

  /**
   * `sign_and_send_transaction`: a mined receipt with status 1 is a success with hash
   * and gas; any other status a failure with hash; `TimeExhausted` a success with hash
   * and a timeout note; any exception from signing, sending or another receipt error a
   * failure without hash, carrying the exception's text.
   */
  function SignAndSendTransaction(tx: Transaction, account: AccountChain): (r: ClaimResult)
    ensures r.address == tx.from
    ensures r.success <==>
      && account.signError.None? && account.broadcast.Sent?
      && (account.receipt.TimedOut? || (account.receipt.Mined? && account.receipt.status == 1))
    ensures r.txHash.Some? <==>
      account.signError.None? && account.broadcast.Sent? && !account.receipt.ReceiptRaised?
    ensures r.txHash.Some? ==> r.txHash.value == account.broadcast.hash
    ensures r.gasUsed.Some? <==> r.success && account.receipt.Mined?
    ensures r.gasUsed.Some? ==> r.gasUsed.value == account.receipt.gasUsed
    ensures r.error.None? <==> r.gasUsed.Some?
    ensures account.signError.Some? ==> r.error == account.signError
    ensures account.signError.None? && account.broadcast.SendRaised? ==> r.error == Some(account.broadcast.message)
    ensures account.signError.None? && account.broadcast.Sent? && account.receipt.ReceiptRaised? ==>
      r.error == Some(account.receipt.message)
    ensures r.txHash.Some? && !r.success ==> r.error == Some(RevertedMessage)
    ensures r.txHash.Some? && account.receipt.TimedOut? ==> r.error == Some(ReceiptTimeoutMessage)
  {
    if account.signError.Some? then
      ClaimResult(tx.from, false, None, account.signError, None)
    else
      match account.broadcast
      case SendRaised(message) => ClaimResult(tx.from, false, None, Some(message), None)
      case Sent(hash) =>
        match account.receipt
        case Mined(status, gasUsed) =>
          if status == 1 then ClaimResult(tx.from, true, Some(hash), None, Some(gasUsed))
          else ClaimResult(tx.from, false, Some(hash), Some(RevertedMessage), None)
        case TimedOut => ClaimResult(tx.from, true, Some(hash), Some(ReceiptTimeoutMessage), None)
        case ReceiptRaised(message) => ClaimResult(tx.from, false, None, Some(message), None)
  }

  /** The message `process_wallet_claim` logs and returns when building raises. */
  function UnexpectedError(address: string, message: string): string {
    "Unexpected error processing " + address + ": " + message
  }

  /**
   * `process_wallet_claim`: never raises. A failure to build becomes a failed result
   * for the wallet's address; otherwise the result is what signing and sending gives.
   */
  function ProcessWalletClaim(claimer: Claimer, row: Row, account: AccountChain): (r: ClaimResult)
    ensures r.address == row.address
    ensures !claimer.contractLoaded || account.buildError.Some? ==>
      r == ClaimResult(row.address, false, None, Some(UnexpectedError(row.address,
             if !claimer.contractLoaded then ContractNotInitialized else account.buildError.value)), None)
    ensures claimer.contractLoaded && account.buildError.None? ==>
      r == SignAndSendTransaction(
             Transaction(row.address, claimer.contractAddress, GetNonce(account.nonce),
                         claimer.gasLimit, claimer.gasPriceWei, ChainId),
             account)
  {
    var nonce := GetNonce(account.nonce);
    match BuildClaimTransaction(claimer, row.address, nonce, account.buildError)
    case Err(message) => ClaimResult(row.address, false, None, Some(UnexpectedError(row.address, message)), None)
    case Ok(tx) => SignAndSendTransaction(tx, account)
  }

  /** The kinds of outcome one claim attempt can have. */
  datatype OutcomeKind =
    | Confirmed
    | OnChainRevert
    | SubmittedUnconfirmed
    | ContractUnavailable
    | BroadcastFailed
    | UnexpectedFailure

  /**
   * The outcome of claiming for one account, in the order `process_wallet_claim` and
   * `sign_and_send_transaction` make their calls.
   */
  function Outcome(claimer: Claimer, account: AccountChain): OutcomeKind {
    if !claimer.contractLoaded || account.buildError.Some? then ContractUnavailable
    else if account.signError.Some? then UnexpectedFailure
    else if account.broadcast.SendRaised? then BroadcastFailed
    else match account.receipt
      case Mined(status, _) => if status == 1 then Confirmed else OnChainRevert
      case TimedOut => SubmittedUnconfirmed
      case ReceiptRaised(_) => UnexpectedFailure
  }

  /**
   * The result `process_wallet_claim` returns agrees with the outcome taxonomy: it counts
   * as a success exactly for confirmed and submitted-but-unconfirmed claims, carries a
   * hash exactly when the transaction reached the network and a receipt or a timeout
   * came back, and gas only for confirmed claims.
   */
  lemma ClaimMatchesOutcome(claimer: Claimer, row: Row, account: AccountChain)
    ensures var r := ProcessWalletClaim(claimer, row, account);
      var kind := Outcome(claimer, account);
      && (r.success <==> kind == Confirmed || kind == SubmittedUnconfirmed)
      && (r.txHash.Some? <==> kind == Confirmed || kind == OnChainRevert || kind == SubmittedUnconfirmed)
      && (r.gasUsed.Some? <==> kind == Confirmed)
      && (!r.success ==> r.error.Some?)
  {
  }

  // ---------------------------------------------------------------------------
  // The batch driver

  /** `check_connection`: true exactly when connected; a wrong chain id is only a warning. */
  function CheckConnection(probe: ConnectionProbe): (connected: bool)
    ensures connected <==> probe.Connected?
  {
    match probe
    case Connected(chainId, _) => true
    case _ => false
  }

  /** A wallet's claim, with the chain's behaviour for its address. */
  function Claim(claimer: Claimer, chain: string -> AccountChain, row: Row): ClaimResult {
    ProcessWalletClaim(claimer, row, chain(row.address))
  }

  /** The results of claiming for `rows` one after the other. */
  function Claims(claimer: Claimer, chain: string -> AccountChain, rows: seq<Row>): seq<ClaimResult> {
    seq(|rows|, i requires 0 <= i < |rows| => Claim(claimer, chain, rows[i]))
  }

  function Successes(results: seq<ClaimResult>): nat {
    if results == [] then 0
    else Successes(results[..|results| - 1]) + (if results[|results| - 1].success then 1 else 0)
  }

  function Failures(results: seq<ClaimResult>): nat {
    if results == [] then 0
    else Failures(results[..|results| - 1]) + (if results[|results| - 1].success then 0 else 1)
  }

  /** Every result is counted once, as a success or as a failure. */
  lemma {:induction false} SuccessesAndFailures(results: seq<ClaimResult>)
    ensures Successes(results) + Failures(results) == |results|
  {
    if results != [] {
      SuccessesAndFailures(results[..|results| - 1]);
    }
  }

  /** The batch summary's counters. */
  datatype BatchTally = BatchTally(successful: nat, failed: nat)

  function Tally(results: seq<ClaimResult>): BatchTally {
    BatchTally(Successes(results), Failures(results))
  }

  /** The batch summaries of claiming page after page. */
  function Tallies(claimer: Claimer, chain: string -> AccountChain, pages: seq<seq<Row>>): seq<BatchTally> {
    seq(|pages|, j requires 0 <= j < |pages| => Tally(Claims(claimer, chain, pages[j])))
  }

  lemma TalliesStep(claimer: Claimer, chain: string -> AccountChain, pages: seq<seq<Row>>, p: nat)
    requires p < |pages|
    ensures Tallies(claimer, chain, pages[..p + 1])
         == Tallies(claimer, chain, pages[..p]) + [Tally(Claims(claimer, chain, pages[p]))]
  {
  }

  /** "Truthy" `max_wallets`: present and not 0. */
  predicate CeilingActive(maxWallets: Option<int>) {
    maxWallets.Some? && maxWallets.value != 0
  }

  /**
   * How many of `available` wallets the `max_wallets` check lets through: `None` and 0
   * set no ceiling, a positive ceiling caps the count, a negative one stops the pass
   * before the first claim.
   */
  function ClaimLimit(maxWallets: Option<int>, available: nat): (limit: nat)
    ensures limit <= available
    ensures !CeilingActive(maxWallets) ==> limit == available
    ensures CeilingActive(maxWallets) && maxWallets.value > 0 ==> limit == Min(maxWallets.value, available)
    ensures CeilingActive(maxWallets) && maxWallets.value < 0 ==> limit == 0
  {
    if !CeilingActive(maxWallets) then available
    else if maxWallets.value < 0 then 0
    else Min(maxWallets.value, available)
  }

  /** How a pass of `process_claims` ends. */
  datatype PassStatus = ConnectionFailed | ContractMissing | Exhausted | CeilingReached | Interrupted

  /**
   * Whether the interrupt (a `KeyboardInterrupt` that arrives before the claim with
   * index `interruptAt`) ends the pass before the ceiling or the table does.
   */
  predicate InterruptedFirst(maxWallets: Option<int>, interruptAt: Option<nat>, available: nat) {
    interruptAt.Some? && interruptAt.value < available
    && interruptAt.value <= ClaimLimit(maxWallets, available)
  }

  /** The number of claims a pass over `available` wallets attempts. */
  function Attempts(maxWallets: Option<int>, interruptAt: Option<nat>, available: nat): (n: nat)
    ensures n <= ClaimLimit(maxWallets, available)
  {
    if InterruptedFirst(maxWallets, interruptAt, available) then interruptAt.value
    else ClaimLimit(maxWallets, available)
  }

  /** How a pass that got past its checks ends. */
  function EndStatus(maxWallets: Option<int>, interruptAt: Option<nat>, available: nat): PassStatus {
    if InterruptedFirst(maxWallets, interruptAt, available) then Interrupted
    else if ClaimLimit(maxWallets, available) < available then CeilingReached
    else Exhausted
  }

  /** What stops the pass just before the claim with index `processed`, if anything. */
  function StopBefore(maxWallets: Option<int>, interruptAt: Option<nat>, processed: nat): Option<PassStatus> {
    if interruptAt == Some(processed) then Some(Interrupted)
    else if CeilingActive(maxWallets) && processed >= maxWallets.value then Some(CeilingReached)
    else None
  }

  /**
   * The per-claim checks stop the pass exactly at `Attempts`, and with `EndStatus`:
   * before it nothing stops the pass.
   */
  lemma StopRule(maxWallets: Option<int>, interruptAt: Option<nat>, available: nat, processed: nat)
    requires processed < available
    requires processed <= Attempts(maxWallets, interruptAt, available)
    ensures StopBefore(maxWallets, interruptAt, processed).Some?
        <==> processed == Attempts(maxWallets, interruptAt, available)
    ensures StopBefore(maxWallets, interruptAt, processed).Some? ==>
      StopBefore(maxWallets, interruptAt, processed).value == EndStatus(maxWallets, interruptAt, available)
  {
  }

  /** A pass that reaches the end of the table has attempted every wallet and is exhausted. */
  lemma ExhaustRule(maxWallets: Option<int>, interruptAt: Option<nat>, available: nat)
    requires Attempts(maxWallets, interruptAt, available) == available
    ensures EndStatus(maxWallets, interruptAt, available) == Exhausted
  {
  }

  /** The counters and results of one pass. */
  datatype PassReport = PassReport(
    status: PassStatus,
    results: seq<ClaimResult>,
    processed: nat,
    successful: nat,
    failed: nat,
    batches: seq<BatchTally>,
    successRate: Option<real>)

  /**
   * The success rate of the final summary, in percent. Where nothing was processed it is
   * 0 rather than a division by zero.
   */
  function SuccessRate(successful: nat, processed: nat): (rate: real)
    requires successful <= processed
    ensures 0.0 <= rate <= 100.0
    ensures processed == 0 ==> rate == 0.0
    ensures successful == processed && processed > 0 ==> rate == 100.0
    ensures processed > 0 ==> rate * processed as real == 100.0 * successful as real
  {
    if processed == 0 then 0.0
    else 100.0 * successful as real / processed as real
  }

  /** The success rate exactly as line 319 computes it: `total_successful / total_processed`. */
  function FinalSummaryAsWritten(successful: nat, processed: nat): (r: Result<real>)
    ensures r.Err? <==> processed == 0
  {
    if processed == 0 then Err("division by zero")
    else Ok(100.0 * successful as real / processed as real)
  }

  /**
   * The final summary as written raises exactly when the pass attempted no claim: an
   * empty table, a negative `max_wallets`, or an interrupt before the first claim.
   * Where it does not raise it agrees with `SuccessRate`.
   */
  lemma {:induction false} AsWrittenSummaryRaises(maxWallets: Option<int>, interruptAt: Option<nat>,
                                                  available: nat, successful: nat)
    requires successful <= Attempts(maxWallets, interruptAt, available)
    ensures var n := Attempts(maxWallets, interruptAt, available);
      && (FinalSummaryAsWritten(successful, n).Err? <==>
          available == 0 || (maxWallets.Some? && maxWallets.value < 0) || interruptAt == Some(0))
      && (FinalSummaryAsWritten(successful, n).Ok? ==>
          FinalSummaryAsWritten(successful, n).value == SuccessRate(successful, n))
  {
    var n := Attempts(maxWallets, interruptAt, available);
    var limit := ClaimLimit(maxWallets, available);
    if InterruptedFirst(maxWallets, interruptAt, available) {
      assert n == interruptAt.value;
    } else {
      assert n == limit;
      if available > 0 && !(maxWallets.Some? && maxWallets.value < 0) {
        assert limit > 0;
      }
    }
  }

  /** The pass stopped after `processed` claims, inside page `p` (possibly before its first row). */
  predicate StoppedInPage<T>(pages: seq<seq<T>>, p: nat, processed: nat) {
    p < |pages| && |Flatten(pages[..p])| <= processed < |Flatten(pages[..p + 1])|
  }

  /**
   * The inner loop of `process_claims` over one page: before each wallet, stop on an
   * interrupt or on a reached ceiling; otherwise claim for it and count the result in
   * the page's and the pass's counters.
   */
  method ClaimBatch(claimer: Claimer, chain: string -> AccountChain, batch: seq<Row>,
                    maxWallets: Option<int>, interruptAt: Option<nat>, ghost available: nat,
                    totalProcessed: nat, totalSuccessful: nat, totalFailed: nat)
    returns (outcomes: seq<ClaimResult>, batchSuccessful: nat, batchFailed: nat,
             processed: nat, successful: nat, failed: nat, stop: Option<PassStatus>)
    requires totalProcessed + |batch| <= available
    requires totalProcessed <= Attempts(maxWallets, interruptAt, available)
    ensures |outcomes| <= |batch| && outcomes == Claims(claimer, chain, batch[..|outcomes|])
    ensures batchSuccessful == Successes(outcomes) && batchFailed == Failures(outcomes)
    ensures processed == totalProcessed + |outcomes| <= Attempts(maxWallets, interruptAt, available)
    ensures successful == totalSuccessful + batchSuccessful && failed == totalFailed + batchFailed
    ensures stop.None? ==> |outcomes| == |batch|
    ensures stop.Some? ==>
      && |outcomes| < |batch|
      && processed == Attempts(maxWallets, interruptAt, available)
      && stop.value == EndStatus(maxWallets, interruptAt, available)
  {
    outcomes, batchSuccessful, batchFailed := [], 0, 0;
    processed, successful, failed := totalProcessed, totalSuccessful, totalFailed;
    stop := None;
    var k := 0;
    while k < |batch|
      invariant 0 <= k <= |batch| && |outcomes| == k
      invariant outcomes == Claims(claimer, chain, batch[..k])
      invariant batchSuccessful == Successes(outcomes) && batchFailed == Failures(outcomes)
      invariant processed == totalProcessed + k <= Attempts(maxWallets, interruptAt, available)
      invariant successful == totalSuccessful + batchSuccessful && failed == totalFailed + batchFailed
    {
      StopRule(maxWallets, interruptAt, available, processed);
      if interruptAt == Some(processed) {
        stop := Some(Interrupted);
        return;
      }
      if maxWallets.Some? && maxWallets.value != 0 && processed >= maxWallets.value {
        stop := Some(CeilingReached);
        return;
      }
      var result := ProcessWalletClaim(claimer, batch[k], chain(batch[k].address));
      if result.success {
        batchSuccessful := batchSuccessful + 1;
        successful := successful + 1;
      } else {
        batchFailed := batchFailed + 1;
        failed := failed + 1;
      }
      processed := processed + 1;
      ClaimsStep(claimer, chain, batch, k, outcomes, result);
      outcomes := outcomes + [result];
      k := k + 1;
    }
    assert batch[..k] == batch;
  }

  /**
   * The outer loop of `process_claims`: claim page after page, summarise every page
   * that was claimed to its end, and stop where `ClaimBatch` stops.
   */
  method ClaimPages(claimer: Claimer, chain: string -> AccountChain, pages: seq<seq<Row>>,
                    maxWallets: Option<int>, interruptAt: Option<nat>, ghost available: nat)
    returns (results: seq<ClaimResult>, batches: seq<BatchTally>,
             totalProcessed: nat, totalSuccessful: nat, totalFailed: nat, status: PassStatus)
    requires |Flatten(pages)| == available
    ensures totalProcessed == Attempts(maxWallets, interruptAt, available)
    ensures status == EndStatus(maxWallets, interruptAt, available)
    ensures results == Claims(claimer, chain, Flatten(pages)[..totalProcessed])
    ensures totalSuccessful == Successes(results) && totalFailed == Failures(results)
    ensures |batches| <= |pages|
    ensures status == Exhausted ==> |batches| == |pages|
    ensures status != Exhausted ==> StoppedInPage(pages, |batches|, totalProcessed)
    ensures batches == Tallies(claimer, chain, pages[..|batches|])
  {
    totalProcessed, totalSuccessful, totalFailed := 0, 0, 0;
    results, batches := [], [];
    status := Exhausted;
    var p := 0;
    while p < |pages|
      invariant 0 <= p <= |pages| && |batches| == p
      invariant totalProcessed == |Flatten(pages[..p])| <= Attempts(maxWallets, interruptAt, available)
      invariant results == Claims(claimer, chain, Flatten(pages[..p]))
      invariant totalSuccessful == Successes(results) && totalFailed == Failures(results)
      invariant batches == Tallies(claimer, chain, pages[..p])
    {
      var batch := pages[p];
      FlattenPrefix(pages, p);
      var outcomes, batchSuccessful, batchFailed, stop;
      outcomes, batchSuccessful, batchFailed, totalProcessed, totalSuccessful, totalFailed, stop :=
        ClaimBatch(claimer, chain, batch, maxWallets, interruptAt, available,
                   totalProcessed, totalSuccessful, totalFailed);
      ClaimsAppend(claimer, chain, Flatten(pages[..p]), batch[..|outcomes|]);
      SuccessesAppend(results, outcomes);
      results := results + outcomes;
      if stop.Some? {
        assert Flatten(pages)[..totalProcessed] == Flatten(pages[..p]) + batch[..|outcomes|];
        assert StoppedInPage(pages, p, totalProcessed);
        status := stop.value;
        return;
      }
      assert batch[..|outcomes|] == batch;
      TalliesStep(claimer, chain, pages, p);
      batches := batches + [BatchTally(batchSuccessful, batchFailed)];
      p := p + 1;
    }
    assert pages[..p] == pages;
    assert Flatten(pages)[..totalProcessed] == Flatten(pages[..p]);
    ExhaustRule(maxWallets, interruptAt, available);
  }

  /**
   * `process_claims`: check the connection and the contract, then claim for the wallets
   * page by page in id order until the table is exhausted, `max_wallets` is reached or
   * the pass is interrupted (`interruptAt`), and report the counters.
   */
  method ProcessClaims(claimer: Claimer, probe: ConnectionProbe, rows: seq<Row>, batchSize: int,
                       maxWallets: Option<int>, interruptAt: Option<nat>, chain: string -> AccountChain)
    returns (report: PassReport)
    ensures report.status == ConnectionFailed <==> !probe.Connected?
    ensures report.status == ContractMissing <==> probe.Connected? && !claimer.contractLoaded
    ensures report.status in {ConnectionFailed, ContractMissing} ==>
      report.results == [] && report.processed == 0 && report.batches == [] && report.successRate == None
    ensures probe.Connected? && claimer.contractLoaded ==>
      var n := Attempts(maxWallets, interruptAt, |rows|);
      var pages := Chunks(rows, batchSize);
      && report.status == EndStatus(maxWallets, interruptAt, |rows|)
      && report.processed == n
      && report.results == Claims(claimer, chain, rows[..n])
      && report.successful == Successes(report.results)
      && report.failed == Failures(report.results)
      && report.processed == report.successful + report.failed
      && |report.batches| <= |pages|
      && (report.status == Exhausted ==> |report.batches| == |pages|)
      && (report.status != Exhausted ==> StoppedInPage(pages, |report.batches|, n))
      && report.batches == Tallies(claimer, chain, pages[..|report.batches|])
      && report.successRate == Some(SuccessRate(report.successful, report.processed))
  {
    if !CheckConnection(probe) {
      return PassReport(ConnectionFailed, [], 0, 0, 0, [], None);
    }
    if !claimer.contractLoaded {
      return PassReport(ContractMissing, [], 0, 0, 0, [], None);
    }
    var pages := GetWalletBatches(rows, batchSize);
    ChunksArePages(rows, batchSize);
    var results, batches, totalProcessed, totalSuccessful, totalFailed, status :=
      ClaimPages(claimer, chain, pages, maxWallets, interruptAt, |rows|);
    SuccessesAndFailures(results);
    report := PassReport(status, results, totalProcessed, totalSuccessful, totalFailed, batches,
                         Some(SuccessRate(totalSuccessful, totalProcessed)));
  }

  /** Cutting the rest of the table at the cursor takes the next page and leaves the rest. */
  lemma ChunksStep<T>(rows: seq<T>, cursor: nat, batchSize: int)
    requires cursor < |rows|
    ensures var cut := PageSize(batchSize, |rows| - cursor);
      Chunks(rows[cursor..], batchSize)
        == [rows[cursor..cursor + cut]] + Chunks(rows[cursor + cut..], batchSize)
  {
    var cut := PageSize(batchSize, |rows| - cursor);
    assert rows[cursor..][..cut] == rows[cursor..cursor + cut];
    assert rows[cursor..][cut..] == rows[cursor + cut..];
  }

  /** Claiming for one more row appends its result and its count. */
  lemma ClaimsStep(claimer: Claimer, chain: string -> AccountChain, rows: seq<Row>, i: nat,
                   before: seq<ClaimResult>, result: ClaimResult)
    requires i < |rows|
    requires before == Claims(claimer, chain, rows[..i])
    requires result == Claim(claimer, chain, rows[i])
    ensures before + [result] == Claims(claimer, chain, rows[..i + 1])
    ensures Successes(before + [result]) == Successes(before) + (if result.success then 1 else 0)
    ensures Failures(before + [result]) == Failures(before) + (if result.success then 0 else 1)
  {
    assert (before + [result])[..|before|] == before;
  }

  lemma ClaimsAppend(claimer: Claimer, chain: string -> AccountChain, a: seq<Row>, b: seq<Row>)
    ensures Claims(claimer, chain, a + b) == Claims(claimer, chain, a) + Claims(claimer, chain, b)
  {
  }

  lemma {:induction false} SuccessesAppend(a: seq<ClaimResult>, b: seq<ClaimResult>)
    ensures Successes(a + b) == Successes(a) + Successes(b)
    ensures Failures(a + b) == Failures(a) + Failures(b)
    decreases |b|
  {
    if b == [] {
      assert a + b == a;
    } else {
      var front := b[..|b| - 1];
      SuccessesAppend(a, front);
      assert (a + b)[..|a + b| - 1] == a + front;
    }
  }

  /**
   * The first pages are a prefix of all rows, and the next page follows them:
   * the rows so far plus a prefix of page `p` are a prefix of all rows.
   */
  lemma FlattenPrefix<T>(pages: seq<seq<T>>, p: nat)
    requires p < |pages|
    ensures Flatten(pages[..p + 1]) == Flatten(pages[..p]) + pages[p]
    ensures |Flatten(pages[..p])| + |pages[p]| <= |Flatten(pages)|
    ensures forall m :: 0 <= m <= |pages[p]| ==>
      Flatten(pages)[..|Flatten(pages[..p])| + m] == Flatten(pages[..p]) + pages[p][..m]
  {
    assert pages[..p + 1] == pages[..p] + [pages[p]];
    FlattenAppend(pages[..p], [pages[p]]);
    assert Flatten([pages[p]]) == pages[p] + Flatten([pages[p]][1..]);
    assert pages == pages[..p + 1] + pages[p + 1..];
    FlattenAppend(pages[..p + 1], pages[p + 1..]);
  }
}
