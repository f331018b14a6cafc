/**
 * The scheduler of `scheduler.py`: when to run, the command line it hands to the claim
 * process, how it reads the child's exit, the persisted run statistics, the waiting
 * loop and one turn of the main loop.
 *
 * Timestamps are whole seconds on one clock; the caller passes "now" in. The file
 * system, the child process and the signal handler are inputs.
 */
module Scheduler {
  import opened Prelude
  import opened Decimal
  import opened FaucetClaim

  const SecondsPerHour: int := 3600
  /** The longest single sleep of `wait_with_progress`, in seconds. */
  const MaxSleep: real := 300.0
  /** The sleep that keeps the main loop from spinning when the next run is not in the future. */
  const IdleSleep: int := 60
  const ClaimScript: string := "faucet_claim.py"

  /**
   * The scheduler's settings. `delay` and `gasPrice` are Python floats; they are kept as
   * the text `str` gives for them, since the scheduler only ever prints them.
   */
  datatype SchedulerConfig = SchedulerConfig(
    contractAddress: string,
    dbPath: string,
    rpcUrl: string,
    abiPath: string,
    batchSize: int,
    delay: string,
    gasLimit: int,
    gasPrice: string,
    maxWallets: Option<int>,
    intervalHours: int)

  // ---------------------------------------------------------------------------
  // The child's command line

  /**
   * `build_faucet_command`, with `python` standing for `sys.executable`. The ceiling is
   * passed on when `max_wallets` is truthy, which is `CeilingActive`.
   */
  function BuildFaucetCommand(config: SchedulerConfig, python: string): (cmd: seq<string>)
    ensures |cmd| == if CeilingActive(config.maxWallets) then 20 else 18
    ensures cmd[0] == python && cmd[1] == ClaimScript
  {
    var base := [
      python, ClaimScript,
      "--contract-address", config.contractAddress,
      "--db-path", config.dbPath,
      "--rpc-url", config.rpcUrl,
      "--abi-path", config.abiPath,
      "--batch-size", IntText(config.batchSize),
      "--delay", config.delay,
      "--gas-limit", IntText(config.gasLimit),
      "--gas-price", config.gasPrice
    ];
    if CeilingActive(config.maxWallets) then base + ["--max-wallets", IntText(config.maxWallets.value)]
    else base
  }

  /**
   * How the child's argument parser reads flag/value pairs: left to right, each pair
   * storing its value under its flag, so that a later occurrence overrides an earlier one.
   */
  function ParseFlags(args: seq<string>, parsed: map<string, string>): map<string, string>
    decreases |args|
  {
    if |args| < 2 then parsed else ParseFlags(args[2..], parsed[args[0] := args[1]])
  }

  /** The value the child reads for `flag`, or `None` when the flag is absent. */
  function FlagValue(args: seq<string>, flag: string): Option<string> {
    var parsed := ParseFlags(args, map[]);
    if flag in parsed then Some(parsed[flag]) else None
  }

  /** The ceiling the child process sees: `--max-wallets` read with `int`. */
  function ChildMaxWallets(args: seq<string>): Option<int> {
    match FlagValue(args, "--max-wallets")
    case None => None
    case Some(text) => ParseInt(text)
  }

  /** Parsing a pair stores it and goes on with the rest. */
  lemma ParsePair(flag: string, value: string, rest: seq<string>, parsed: map<string, string>)
    ensures ParseFlags([flag, value] + rest, parsed) == ParseFlags(rest, parsed[flag := value])
  {
    assert ([flag, value] + rest)[2..] == rest;
  }

  /** A pair after any whole pairs is parsed last. */
  lemma {:induction false} ParseAppendPair(args: seq<string>, flag: string, value: string,
                                           parsed: map<string, string>)
    requires |args| % 2 == 0
    ensures ParseFlags(args + [flag, value], parsed) == ParseFlags(args, parsed)[flag := value]
    decreases |args|
  {
    if |args| == 0 {
      assert args + [flag, value] == [flag, value] + [];
      ParsePair(flag, value, [], parsed);
    } else {
      assert (args + [flag, value])[2..] == args[2..] + [flag, value];
      ParseAppendPair(args[2..], flag, value, parsed[args[0] := args[1]]);
    }
  }

  /**
   * A pair appended after whole pairs overrides any earlier value of its flag and
   * leaves every other flag as it was.
   */
  lemma LaterPairWins(args: seq<string>, flag: string, value: string)
    requires |args| % 2 == 0
    ensures FlagValue(args + [flag, value], flag) == Some(value)
    ensures forall other :: other != flag ==> FlagValue(args + [flag, value], other) == FlagValue(args, other)
  {
    ParseAppendPair(args, flag, value, map[]);
  }

  /** The flags the child should end up with for `config`. */
  function ConfigFlags(config: SchedulerConfig): map<string, string> {
    var common := map[
      "--contract-address" := config.contractAddress,
      "--db-path" := config.dbPath,
      "--rpc-url" := config.rpcUrl,
      "--abi-path" := config.abiPath,
      "--batch-size" := IntText(config.batchSize),
      "--delay" := config.delay,
      "--gas-limit" := IntText(config.gasLimit),
      "--gas-price" := config.gasPrice];
    if CeilingActive(config.maxWallets) then common["--max-wallets" := IntText(config.maxWallets.value)]
    else common
  }

  /** Parsing the command's arguments gives exactly the configured flags. */
  lemma ParsedCommand(config: SchedulerConfig, python: string)
    ensures ParseFlags(BuildFaucetCommand(config, python)[2..], map[]) == ConfigFlags(config)
  {
    var p8: seq<string> :=
      if CeilingActive(config.maxWallets) then ["--max-wallets", IntText(config.maxWallets.value)] else [];
    var p7 := ["--gas-price", config.gasPrice] + p8;
    var p6 := ["--gas-limit", IntText(config.gasLimit)] + p7;
    var p5 := ["--delay", config.delay] + p6;
    var p4 := ["--batch-size", IntText(config.batchSize)] + p5;
    var p3 := ["--abi-path", config.abiPath] + p4;
    var p2 := ["--rpc-url", config.rpcUrl] + p3;
    var p1 := ["--db-path", config.dbPath] + p2;
    var p0 := ["--contract-address", config.contractAddress] + p1;
    assert BuildFaucetCommand(config, python)[2..] == p0;
    var m1 := map["--contract-address" := config.contractAddress];
    var m2 := m1["--db-path" := config.dbPath];
    var m3 := m2["--rpc-url" := config.rpcUrl];
    var m4 := m3["--abi-path" := config.abiPath];
    var m5 := m4["--batch-size" := IntText(config.batchSize)];
    var m6 := m5["--delay" := config.delay];
    var m7 := m6["--gas-limit" := IntText(config.gasLimit)];
    var m8 := m7["--gas-price" := config.gasPrice];
    ParsePair("--contract-address", config.contractAddress, p1, map[]);
    ParsePair("--db-path", config.dbPath, p2, m1);
    ParsePair("--rpc-url", config.rpcUrl, p3, m2);
    ParsePair("--abi-path", config.abiPath, p4, m3);
    ParsePair("--batch-size", IntText(config.batchSize), p5, m4);
    ParsePair("--delay", config.delay, p6, m5);
    ParsePair("--gas-limit", IntText(config.gasLimit), p7, m6);
    ParsePair("--gas-price", config.gasPrice, p8, m7);
    if CeilingActive(config.maxWallets) {
      ParsePair("--max-wallets", IntText(config.maxWallets.value), [], m8);
    }
  }

  /**
   * The command carries the configuration to the child: every flag the child reads
   * holds the configured value, the numbers read back as the same numbers, and the
   * child sees a ceiling exactly when the scheduler's `max_wallets` is truthy.
   */
  lemma CommandCarriesConfig(config: SchedulerConfig, python: string)
    ensures var args := BuildFaucetCommand(config, python)[2..];
      && FlagValue(args, "--contract-address") == Some(config.contractAddress)
      && FlagValue(args, "--db-path") == Some(config.dbPath)
      && FlagValue(args, "--rpc-url") == Some(config.rpcUrl)
      && FlagValue(args, "--abi-path") == Some(config.abiPath)
      && FlagValue(args, "--batch-size").Some?
      && ParseInt(FlagValue(args, "--batch-size").value) == Some(config.batchSize)
      && FlagValue(args, "--delay") == Some(config.delay)
      && FlagValue(args, "--gas-limit").Some?
      && ParseInt(FlagValue(args, "--gas-limit").value) == Some(config.gasLimit)
      && FlagValue(args, "--gas-price") == Some(config.gasPrice)
      && ChildMaxWallets(args) == (if CeilingActive(config.maxWallets) then config.maxWallets else None)
  {
    ParsedCommand(config, python);
    ConfigFlagsRead(config, BuildFaucetCommand(config, python)[2..]);
  }

  /** Whatever arguments parse to `ConfigFlags(config)` carry each configured value. */
  lemma ConfigFlagsRead(config: SchedulerConfig, args: seq<string>)
    requires ParseFlags(args, map[]) == ConfigFlags(config)
    ensures FlagValue(args, "--contract-address") == Some(config.contractAddress)
    ensures FlagValue(args, "--db-path") == Some(config.dbPath)
    ensures FlagValue(args, "--rpc-url") == Some(config.rpcUrl)
    ensures FlagValue(args, "--abi-path") == Some(config.abiPath)
    ensures FlagValue(args, "--batch-size") == Some(IntText(config.batchSize))
    ensures ParseInt(IntText(config.batchSize)) == Some(config.batchSize)
    ensures FlagValue(args, "--delay") == Some(config.delay)
    ensures FlagValue(args, "--gas-limit") == Some(IntText(config.gasLimit))
    ensures ParseInt(IntText(config.gasLimit)) == Some(config.gasLimit)
    ensures FlagValue(args, "--gas-price") == Some(config.gasPrice)
    ensures ChildMaxWallets(args) == (if CeilingActive(config.maxWallets) then config.maxWallets else None)
  {
    IntTextRoundTrip(config.batchSize);
    IntTextRoundTrip(config.gasLimit);
    if CeilingActive(config.maxWallets) {
      IntTextRoundTrip(config.maxWallets.value);
    }
  }

  /**
   * The child applies the same wallet ceiling as the scheduler was given: `None`, 0 and
   * every other value lead to the same number of wallets claimed.
   */
  lemma ChildKeepsCeiling(config: SchedulerConfig, python: string, available: nat)
    ensures ClaimLimit(ChildMaxWallets(BuildFaucetCommand(config, python)[2..]), available)
         == ClaimLimit(config.maxWallets, available)
  {
    CommandCarriesConfig(config, python);
  }

  // ---------------------------------------------------------------------------
  // One claiming run

  /** Which of the three files `run_faucet_claiming` looks for exist. */
  datatype FileChecks = FileChecks(scriptExists: bool, dbExists: bool, abiExists: bool)

  /** How `subprocess.run` ends: an exit code, `TimeoutExpired`, or another exception. */
  datatype ChildExit = Exited(returnCode: int) | TimeoutExpired | LaunchRaised(message: string)

  /** A claiming run: refused for a missing file, or launched with a command line. */
  datatype ClaimingRun = MissingFile(path: string) | Launched(command: seq<string>, success: bool) {
    predicate Succeeded() {
      Launched? && success
    }
  }

  /**
   * `run_faucet_claiming`: without the claim script, the database or the ABI file
   * (looked for in that order) nothing is launched and the run fails; otherwise the
   * command is launched and the run succeeds exactly when the child exits with code 0.
   */
  function RunFaucetClaiming(config: SchedulerConfig, python: string, files: FileChecks, child: ChildExit)
    : (run: ClaimingRun)
    ensures !files.scriptExists ==> run == MissingFile(ClaimScript)
    ensures files.scriptExists && !files.dbExists ==> run == MissingFile(config.dbPath)
    ensures files.scriptExists && files.dbExists && !files.abiExists ==> run == MissingFile(config.abiPath)
    ensures run.Launched? <==> files.scriptExists && files.dbExists && files.abiExists
    ensures run.Launched? ==> run.command == BuildFaucetCommand(config, python)
    ensures run.Succeeded() <==> run.Launched? && child == Exited(0)
  {
    if !files.scriptExists then MissingFile(ClaimScript)
    else if !files.dbExists then MissingFile(config.dbPath)
    else if !files.abiExists then MissingFile(config.abiPath)
    else
      var success := match child
        case Exited(code) => code == 0
        case TimeoutExpired => false
        case LaunchRaised(_) => false;
      Launched(BuildFaucetCommand(config, python), success)
  }

  // ---------------------------------------------------------------------------
  // Persisted statistics

  /**
   * The decoded content of `scheduler_stats.json`. A missing key or a `null` reads as
   * `None`; timestamps stand for their ISO-8601 text, which `fromisoformat` reads back.
   */
  datatype RunStats = RunStats(
    runCount: Option<int>,
    lastRunTime: Option<int>,
    nextRunTime: Option<int>,
    lastRunSuccess: bool,
    intervalHours: int)

  /** The statistics file: absent, unreadable as JSON, or holding a record. */
  datatype StatsFile = Absent | Unreadable | Stored(stats: RunStats)

  /** The record `save_run_stats` writes. */
  function StatsRecord(runCount: int, lastRunTime: Option<int>, nextRunTime: Option<int>,
                       success: bool, intervalHours: int): RunStats {
    RunStats(Some(runCount), lastRunTime, nextRunTime, success, intervalHours)
  }

  /** What loading does to a timestamp field: a stored value replaces it, `None` leaves it. */
  function LoadedTime(current: Option<int>, stored: Option<int>): (t: Option<int>)
    ensures stored.Some? ==> t == stored
    ensures stored.None? ==> t == current
  {
    if stored.Some? then stored else current
  }

  /**
   * How writing `scheduler_stats.json` ends: written; `open(..., "w")` raising, which
   * leaves the old file as it was; or `json.dump` raising after `open` truncated the
   * file, which leaves an empty or cut-off text that no longer parses.
   */
  datatype WriteOutcome = Written | OpenFails | DumpFails

  /** The statistics file after `save_run_stats` tried to write `record`. */
  function SavedFile(before: StatsFile, record: RunStats, outcome: WriteOutcome): (after: StatsFile)
    ensures outcome.Written? ==> after == Stored(record)
    ensures outcome.OpenFails? ==> after == before
    ensures outcome.DumpFails? ==> after == Unreadable
  {
    match outcome
    case Written => Stored(record)
    case OpenFails => before
    case DumpFails => Unreadable
  }

  // ---------------------------------------------------------------------------
  // The scheduler object

  /** What `wait_with_progress` or the idle sleep of the main loop did. */
  datatype Pause = Waited(seconds: real, sleeps: seq<real>) | Idle(idleSeconds: int)

  class FaucetScheduler {
    const config: SchedulerConfig
    var running: bool
    var forceRun: bool
    var runCount: int
    var lastRunTime: Option<int>
    var nextRunTime: Option<int>
    /** The statistics file on disk. */
    var statsFile: StatsFile

    /** The length of one schedule interval in seconds. */
    function Interval(): int {
      config.intervalHours * SecondsPerHour
    }

    /**
     * Scheduled: a next run is set, and once a run happened it is exactly one interval
     * after the last run.
     */
    ghost predicate Scheduled()
      reads this
    {
      nextRunTime.Some? && (lastRunTime.Some? ==> nextRunTime.value == lastRunTime.value + Interval())
    }

    constructor (config: SchedulerConfig, statsFile: StatsFile)
      ensures this.config == config && this.statsFile == statsFile
      ensures running && !forceRun && runCount == 0 && lastRunTime == None && nextRunTime == None
    {
      this.config := config;
      this.statsFile := statsFile;
      running, forceRun := true, false;
      runCount, lastRunTime, nextRunTime := 0, None, None;
    }

    /**
     * `calculate_next_run_time`: `now` before the first run, afterwards one interval
     * after the last run.
     */
    function CalculateNextRunTime(now: int): (next: int)
      reads this
      ensures lastRunTime.None? ==> next == now
      ensures lastRunTime.Some? ==> next == lastRunTime.value + Interval()
    {
      if lastRunTime.None? then now else lastRunTime.value + Interval()
    }

    /**
     * `should_run_now`: a pending `force_run` answers yes once and is cleared; otherwise
     * yes when no next run is set or it is due.
     */
    method ShouldRunNow(now: int) returns (run: bool)
      modifies this`forceRun
      ensures old(forceRun) ==> run
      ensures !old(forceRun) ==> (run <==> nextRunTime.None? || now >= nextRunTime.value)
      ensures !forceRun
    {
      if forceRun {
        forceRun := false;
        return true;
      }
      if nextRunTime.None? {
        return true;
      }
      run := now >= nextRunTime.value;
    }

    /** `save_run_stats`: write the current record; a raising write is logged and swallowed. */
    method SaveRunStats(success: bool, outcome: WriteOutcome)
      modifies this`statsFile
      ensures var record := StatsRecord(runCount, lastRunTime, nextRunTime, success, config.intervalHours);
        && (outcome.Written? ==> statsFile == Stored(record))
        && (outcome.OpenFails? ==> statsFile == old(statsFile))
        && (outcome.DumpFails? ==> statsFile == Unreadable)
    {
      var record := StatsRecord(runCount, lastRunTime, nextRunTime, success, config.intervalHours);
      statsFile := SavedFile(statsFile, record, outcome);
    }

    /**
     * `load_run_stats`: from a readable file take the run count (0 when missing) and
     * each timestamp that is set; an absent or unreadable file changes nothing.
     */
    method LoadRunStats()
      modifies this`runCount, this`lastRunTime, this`nextRunTime
      ensures statsFile.Stored? ==>
        && runCount == statsFile.stats.runCount.GetOr(0)
        && lastRunTime == LoadedTime(old(lastRunTime), statsFile.stats.lastRunTime)
        && nextRunTime == LoadedTime(old(nextRunTime), statsFile.stats.nextRunTime)
      ensures !statsFile.Stored? ==>
        runCount == old(runCount) && lastRunTime == old(lastRunTime) && nextRunTime == old(nextRunTime)
    {
      if statsFile.Stored? {
        var stats := statsFile.stats;
        runCount := stats.runCount.GetOr(0);
        if stats.lastRunTime.Some? {
          lastRunTime := stats.lastRunTime;
        }
        if stats.nextRunTime.Some? {
          nextRunTime := stats.nextRunTime;
        }
      }
    }

    /**
     * The start of `run_scheduler`: load the statistics, then recompute the next run
     * from the loaded last run, overriding any stored next run.
     */
    method Start(now: int)
      modifies this`runCount, this`lastRunTime, this`nextRunTime
      ensures Scheduled()
      ensures lastRunTime == LoadedTime(old(lastRunTime), if statsFile.Stored? then statsFile.stats.lastRunTime else None)
      ensures nextRunTime == Some(if lastRunTime.Some? then lastRunTime.value + Interval() else now)
      ensures runCount == if statsFile.Stored? then statsFile.stats.runCount.GetOr(0) else old(runCount)
    {
      LoadRunStats();
      var next := CalculateNextRunTime(now);
      nextRunTime := Some(next);
    }

    /**
     * `wait_with_progress`: sleep `seconds` in steps of `min(300, seconds / 10)`, ending
     * with what remains, while `running` holds. `signalAfter == Some(k)` is a shutdown
     * signal that clears `running` once `k` sleeps are over.
     */
    method WaitWithProgress(seconds: real, signalAfter: Option<nat>) returns (sleeps: seq<real>)
      modifies this`running
      ensures seconds <= 0.0 || !old(running) ==> sleeps == []
      ensures forall i :: 0 <= i < |sleeps| ==> 0.0 < sleeps[i] <= MinReal(MaxSleep, seconds / 10.0)
      ensures forall i :: 0 <= i < |sleeps| - 1 ==> sleeps[i] == MinReal(MaxSleep, seconds / 10.0)
      ensures SumReal(sleeps) <= if seconds > 0.0 then seconds else 0.0
      ensures signalAfter.Some? ==> |sleeps| <= signalAfter.value
      ensures running == (old(running) && (signalAfter.None? || signalAfter.value > |sleeps|))
      ensures seconds > 0.0 && running ==> SumReal(sleeps) == seconds
    {
      sleeps := [];
      if signalAfter == Some(0) {
        running := false;
      }
      if seconds <= 0.0 {
        return;
      }
      var interval := MinReal(MaxSleep, seconds / 10.0);
      var remaining := seconds;
      while remaining > 0.0 && running
        invariant 0.0 <= remaining <= seconds
        invariant SumReal(sleeps) + remaining == seconds
        invariant forall i :: 0 <= i < |sleeps| ==> sleeps[i] == interval
        invariant signalAfter.Some? ==> |sleeps| <= signalAfter.value
        invariant running == (old(running) && (signalAfter.None? || signalAfter.value > |sleeps|))
        invariant !old(running) ==> sleeps == []
        decreases (remaining / interval).Floor
      {
        if remaining <= interval {
          SumRealAppend(sleeps, remaining);
          sleeps := sleeps + [remaining];
          if signalAfter == Some(|sleeps|) {
            running := false;
          }
          return;
        }
        SumRealAppend(sleeps, interval);
        sleeps := sleeps + [interval];
        StepShrinksQuotient(remaining, interval);
        remaining := remaining - interval;
        if signalAfter == Some(|sleeps|) {
          running := false;
        }
      }
    }

    /**
     * The end of a loop turn at the clock reading `later`: wait until the next run when
     * it lies ahead, otherwise sleep for a minute.
     */
    method PauseUntilNextRun(later: int, signalAfter: Option<nat>) returns (pause: Pause)
      requires nextRunTime.Some?
      modifies this`running
      ensures pause.Waited? <==> nextRunTime.value > later
      ensures pause.Waited? ==> pause.seconds == (nextRunTime.value - later) as real
      ensures pause.Waited? && running ==> SumReal(pause.sleeps) == pause.seconds
      ensures pause.Waited? ==> running == (old(running) && (signalAfter.None? || signalAfter.value > |pause.sleeps|))
      ensures pause.Waited? ==>
        forall i :: 0 <= i < |pause.sleeps| ==> 0.0 < pause.sleeps[i] <= MinReal(MaxSleep, pause.seconds / 10.0)
      ensures pause.Waited? ==>
        forall i :: 0 <= i < |pause.sleeps| - 1 ==> pause.sleeps[i] == MinReal(MaxSleep, pause.seconds / 10.0)
      ensures pause.Waited? && signalAfter.Some? ==> |pause.sleeps| <= signalAfter.value
      ensures pause.Idle? ==> pause.idleSeconds == IdleSleep && running == old(running)
    {
      if nextRunTime.value > later {
        var seconds := (nextRunTime.value - later) as real;
        var sleeps := WaitWithProgress(seconds, signalAfter);
        pause := Waited(seconds, sleeps);
      } else {
        pause := Idle(IdleSleep);
      }
    }

    /**
     * One turn of the `while self.running` loop of `run_scheduler`. When a run is due it
     * counts the run, stamps it with `now`, runs the claim process, schedules the next
     * run one interval later and saves the statistics whatever the outcome. Then, at
     * the clock reading `later`, it waits until the next run or sleeps for a minute.
     */
    method RunIteration(python: string, now: int, files: FileChecks, child: ChildExit, write: WriteOutcome,
                        later: int, signalAfter: Option<nat>)
      returns (ran: bool, success: bool, pause: Pause)
      requires Scheduled()
      modifies this`forceRun, this`runCount, this`lastRunTime, this`nextRunTime, this`statsFile, this`running
      ensures Scheduled() && !forceRun
      ensures ran <==> old(forceRun) || now >= old(nextRunTime).value
      ensures ran ==>
        && runCount == old(runCount) + 1
        && lastRunTime == Some(now)
        && nextRunTime == Some(now + Interval())
        && success == RunFaucetClaiming(config, python, files, child).Succeeded()
        && statsFile == SavedFile(old(statsFile),
             StatsRecord(runCount, lastRunTime, nextRunTime, success, config.intervalHours), write)
      ensures !ran ==>
        && runCount == old(runCount) && lastRunTime == old(lastRunTime)
        && nextRunTime == old(nextRunTime) && statsFile == old(statsFile) && !success
      ensures pause.Waited? <==> nextRunTime.value > later
      ensures pause.Waited? ==> pause.seconds == (nextRunTime.value - later) as real
      ensures pause.Waited? && running ==> SumReal(pause.sleeps) == pause.seconds
      ensures pause.Waited? ==> running == (old(running) && (signalAfter.None? || signalAfter.value > |pause.sleeps|))
      ensures pause.Waited? ==>
        forall i :: 0 <= i < |pause.sleeps| ==> 0.0 < pause.sleeps[i] <= MinReal(MaxSleep, pause.seconds / 10.0)
      ensures pause.Waited? ==>
        forall i :: 0 <= i < |pause.sleeps| - 1 ==> pause.sleeps[i] == MinReal(MaxSleep, pause.seconds / 10.0)
      ensures pause.Waited? && signalAfter.Some? ==> |pause.sleeps| <= signalAfter.value
      ensures pause.Idle? ==> pause.idleSeconds == IdleSleep && running == old(running)
    {
      ran := ShouldRunNow(now);
      success := false;
      if ran {
        runCount := runCount + 1;
        lastRunTime := Some(now);
        var run := RunFaucetClaiming(config, python, files, child);
        success := run.Succeeded();
        var next := CalculateNextRunTime(now);
        nextRunTime := Some(next);
        SaveRunStats(success, write);
      }
      pause := PauseUntilNextRun(later, signalAfter);
    }
  }

  /**
   * A written record read back by a freshly constructed scheduler restores the run
   * count and both timestamps; the success flag is written but not read back.
   */
  method SaveThenRestart(s: FaucetScheduler, success: bool) returns (restarted: FaucetScheduler)
    modifies s`statsFile
    ensures fresh(restarted) && restarted.config == s.config && restarted.statsFile == s.statsFile
    ensures restarted.runCount == s.runCount
    ensures restarted.lastRunTime == s.lastRunTime && restarted.nextRunTime == s.nextRunTime
  {
    s.SaveRunStats(success, Written);
    restarted := new FaucetScheduler(s.config, s.statsFile);
    restarted.LoadRunStats();
  }

  lemma SumRealAppend(s: seq<real>, x: real)
    ensures SumReal(s + [x]) == SumReal(s) + x
  {
    assert (s + [x])[..|s|] == s;
  }

  /** Taking one step off what remains lowers the number of whole steps left by one. */
  lemma StepShrinksQuotient(remaining: real, interval: real)
    requires interval > 0.0 && remaining > interval
    ensures ((remaining - interval) / interval).Floor < (remaining / interval).Floor
    ensures ((remaining - interval) / interval).Floor >= 0
  {
    assert (remaining - interval) / interval == remaining / interval - interval / interval;
    assert interval / interval == 1.0;
    var steps := remaining / interval;
    assert steps - 1.0 >= 0.0;
    assert (steps - 1.0).Floor == steps.Floor - 1;
  }
}
