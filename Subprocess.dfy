/** `LoggingSubprocess`: one subprocess whose merged output is sent to a
    logger, with its lifecycle (construction, `run`, the accessors) and its
    cancellation (`notify`, `terminate`).

    What the operating system decides is passed in: whether `Popen`
    succeeds and with which pid, what the process writes, its exit status,
    what `poll()` would find, the current account, and the relay's result.
    The logger is a field collecting the records emitted, and the external
    commands dispatched for signalling are collected in another. */
module Subprocess {
  import opened SessionTypes
  import opened PyStr
  import opened Commands
  import opened OutputStream

  /** The `Popen` object, as far as the class looks at it: its pid, the
      command it was started with, and the return code that `poll()` and
      `wait()` fill in once the process has exited. */
  datatype Process = Process(pid: int, argv: seq<string>, returncode: Option<int>)

  /** What `Popen(...)` does: start a process, raise an `OSError` (which
      `_start_subprocess` catches), or raise any other exception (such as a
      `ValueError` for an argument holding a NUL character), which passes
      through `_start_subprocess` and `run` uncaught. */
  datatype SpawnOutcome = Spawned(pid: int) | SpawnFailed(reason: string) | SpawnRaised(error: Error)

  /** What running the signal relay returned: its exit status and output. */
  datatype RelayResult = RelayResult(returncode: int, output: string)

  /** The records handed to the logger (message formatting and shell
      quoting are left to the logger). */
  datatype LogRecord =
    | RunningCommand(commandLine: seq<string>)
    | ProcessFailedToStart(reason: string)
    | StartedAsPid(pid: int)
    | Output(line: string)
    | RunningRelay(argv: seq<string>)
    | SignalFailed(signal: string, pid: int, relayOutput: string)
    | KillingTree(pid: int)

  /** The signalling actions taken outside the process: the POSIX relay run
      with an argv, or the Windows process-tree killer called on a pid. */
  datatype Dispatch = Relay(argv: seq<string>) | KillTree(pid: int, signalSubprocesses: bool)

  /** What the completion callback can observe of the object when it is
      invoked: the exit code, whether the start failed, the latch, and how
      many records had been logged. */
  datatype CallbackView = CallbackView(exitCode: Option<int>, failedToStart: bool, hasStarted: bool, logged: nat)

  const EmptyArgsMessage: string := "'args' kwarg must be a sequence of at least one element"
  const PosixUserMessage: string := "Argument 'user' must be a PosixSessionUser on posix systems."
  const WindowsUserMessage: string := "Argument 'user' must be a WindowsSessionUser on Windows systems."
  const AlreadyRunMessage: string := "The process has already been run"
  const NotifyUnsupportedMessage: string := "Notify not implemented on non-posix yet"

  /** The `ValueError` the constructor raises for these arguments, if any. */
  function ConstructionError(os: OsKind, args: seq<string>, user: Option<SessionUser>): (e: Option<Error>)
    // construction succeeds exactly for a non-empty argument list and a
    // user, if any, of the host's variant
    ensures e.None? <==> |args| >= 1 && (user.Some? ==> UserMatchesOs(user.value, os))
    // the empty list is reported first, whatever the user
    ensures |args| == 0 ==> e == Some(ValueError(EmptyArgsMessage))
    ensures e.Some? ==> e.value.ValueError?
  {
    if |args| < 1 then Some(ValueError(EmptyArgsMessage))
    else if user.Some? && os == Posix && !user.value.PosixSessionUser? then Some(ValueError(PosixUserMessage))
    else if user.Some? && os == Windows && !user.value.WindowsSessionUser? then Some(ValueError(WindowsUserMessage))
    else None
  }

  /** `Popen.poll()`: a process still without a return code takes the status
      the OS reports now (`None` if it is still running). */
  function Polled(p: Option<Process>, osStatus: Option<int>): (q: Option<Process>)
    ensures q.Some? <==> p.Some?
    ensures q.Some? ==> q.value.pid == p.value.pid && q.value.argv == p.value.argv
    // a return code, once known, never changes
    ensures p.Some? && p.value.returncode.Some? ==> q == p
    // a process still running takes the status the OS reports, so it is
    // running afterwards exactly when the OS says so
    ensures p.Some? && p.value.returncode.None? ==> q.value.returncode == osStatus
  {
    match p
    case None => None
    case Some(proc) => if proc.returncode.None? then Some(proc.(returncode := osStatus)) else p
  }

  function OutputRecords(lines: seq<string>): seq<LogRecord> {
    seq(|lines|, i requires 0 <= i < |lines| => Output(lines[i]))
  }

  lemma OutputRecordsSnoc(lines: seq<string>, line: string)
    ensures OutputRecords(lines + [line]) == OutputRecords(lines) + [Output(line)]
  {
  }

  /** The records logged so far, then one more record and a block of
      records, regrouped around the last record logged so far. */
  lemma AppendAfterLast(logged: seq<LogRecord>, next: LogRecord, rest: seq<LogRecord>)
    requires |logged| >= 1
    ensures logged + [next] + rest == logged[..|logged| - 1] + [logged[|logged| - 1], next] + rest
  {
    assert logged == logged[..|logged| - 1] + [logged[|logged| - 1]];
  }

  /** What one relay run logs: the command, then a warning if it failed. */
  function RelayRecords(argv: seq<string>, signal: string, pid: int, relay: RelayResult): seq<LogRecord> {
    [RunningRelay(argv)] + if relay.returncode != 0 then [SignalFailed(signal, pid, relay.output)] else []
  }

  class LoggingSubprocess {
    const os: OsKind
    const args: seq<string>
    const encoding: string
    const user: Option<SessionUser>
    /** Whether a completion callback was given. */
    const hasCallback: bool

    var process: Option<Process>
    var startFailed: bool
    /** The `_has_started` event, as a one-way flag. */
    var hasStartedLatch: bool
    var log: seq<LogRecord>
    var dispatched: seq<Dispatch>
    /** One entry per invocation of the callback: the state it observed. */
    ghost var callbackSaw: seq<CallbackView>

    ghost predicate Valid()
      reads this
    {
      ConstructionError(os, args, user).None? &&
      (process.Some? ==> hasStartedLatch) &&
      (startFailed ==> hasStartedLatch)
    }

    constructor (os: OsKind, args: seq<string>, encoding: string, user: Option<SessionUser>, hasCallback: bool)
      requires ConstructionError(os, args, user).None?
      ensures Valid()
      ensures this.os == os && this.args == args && this.encoding == encoding
      ensures this.user == user && this.hasCallback == hasCallback
      ensures Pid().None? && ExitCode().None? && !IsRunning() && !HasStarted() && !FailedToStart()
      ensures log == [] && dispatched == [] && callbackSaw == []
    {
      this.os := os;
      this.args := args;
      this.encoding := encoding;
      this.user := user;
      this.hasCallback := hasCallback;
      process := None;
      startFailed := false;
      hasStartedLatch := false;
      log := [];
      dispatched := [];
      callbackSaw := [];
    }

    /** `LoggingSubprocess(...)`: either the `ValueError` of
        `ConstructionError`, or a fresh object in its initial state. */
    static method New(os: OsKind, args: seq<string>, encoding: string, user: Option<SessionUser>, hasCallback: bool)
      returns (r: Result<LoggingSubprocess>)
      ensures r.Err? <==> ConstructionError(os, args, user).Some?
      ensures r.Err? ==> r.error == ConstructionError(os, args, user).value
      ensures r.Ok? ==> fresh(r.value) && r.value.Valid()
      ensures r.Ok? ==> r.value.os == os && r.value.args == args && r.value.encoding == encoding && r.value.user == user && r.value.hasCallback == hasCallback
      ensures r.Ok? ==> r.value.Pid().None? && r.value.ExitCode().None? && !r.value.IsRunning()
      ensures r.Ok? ==> !r.value.HasStarted() && !r.value.FailedToStart()
      ensures r.Ok? ==> r.value.log == [] && r.value.dispatched == [] && r.value.callbackSaw == []
    {
      var e := ConstructionError(os, args, user);
      if e.Some? {
        return Err(e.value);
      }
      var p := new LoggingSubprocess(os, args, encoding, user, hasCallback);
      return Ok(p);
    }

    function Pid(): (r: Option<int>)
      reads this
      ensures r.Some? <==> process.Some?
      ensures r.Some? ==> r.value == process.value.pid
    {
      if process.Some? then Some(process.value.pid) else None
    }

    /** The return code, which only `run` (through `wait`) or `poll` sets. */
    function ExitCode(): (r: Option<int>)
      reads this
      // no exit code without a process
      ensures r.Some? ==> Pid().Some?
    {
      if process.Some? then process.value.returncode else None
    }

    function IsRunning(): (r: bool)
      reads this
      // running means: a process exists and has no exit code yet
      ensures r <==> Pid().Some? && ExitCode().None?
    {
      if process.Some? then process.value.returncode.None? else false
    }

    function HasStarted(): (r: bool)
      requires Valid()
      reads this
      // a process, or a failed start, is only ever seen after the latch is set
      ensures Pid().Some? ==> r
    {
      hasStartedLatch
    }

    function FailedToStart(): (r: bool)
      requires Valid()
      reads this
      ensures r ==> HasStarted()
    {
      startFailed
    }

    /** The command line `_start_subprocess` logs: on POSIX the command
        itself, on Windows the arguments the wrapper runs. */
    function CommandLineForLogger(currentUser: string, payload: string): seq<string> {
      if os == Posix then SpawnCommand(os, user, currentUser, args, payload) else args
    }

    /** `_start_subprocess`: build the command, log it, and try to spawn it.
        `payload` stands for the encoded job wrapper used on Windows. An
        `OSError` becomes `None`; any other exception is raised. */
    method StartSubprocess(spawn: SpawnOutcome, currentUser: string, payload: string) returns (r: Result<Option<Process>>)
      modifies this`log
      ensures r.Err? <==> spawn.SpawnRaised?
      ensures r.Err? ==> r.error == spawn.error
      ensures r.Ok? && r.value.Some? <==> spawn.Spawned?
      ensures spawn.Spawned? ==> r.value.value == Process(spawn.pid, SpawnCommand(os, user, currentUser, args, payload), None)
      // the command line is logged before `Popen` is called, whatever it does
      ensures !spawn.SpawnFailed? ==> log == old(log) + [RunningCommand(CommandLineForLogger(currentUser, payload))]
      ensures spawn.SpawnFailed? ==>
                log == old(log) + [RunningCommand(CommandLineForLogger(currentUser, payload)), ProcessFailedToStart(spawn.reason)]
    {
      var command: seq<string> := [];
      if user.Some? {
        if os == Posix {
          if user.value.user != currentUser {
            command := command + ["sudo", "-u", user.value.user, "-i", "setsid", "-w"];
          }
        }
      }
      if os == Posix {
        command := command + args;
      } else {
        command := ["powershell.exe", "-ExecutionPolicy", "Unrestricted", "-EncodedCommand", payload];
      }
      assert os == Posix ==> command == SpawnCommand(os, user, currentUser, args, payload);
      var commandLineForLogger := if os == Posix then command else args;
      log := log + [RunningCommand(commandLineForLogger)];
      match spawn
      case Spawned(pid) =>
        r := Ok(Some(Process(pid, command, None)));
      case SpawnFailed(reason) =>
        log := log + [ProcessFailedToStart(reason)];
        r := Ok(None);
      case SpawnRaised(error) =>
        r := Err(error);
    }

    /** The `readline`/`rstrip` loop of `run`: log every line of the
        stream until the empty read. */
    method LogOutput(stdout: string)
      modifies this`log
      ensures log == old(log) + OutputRecords(LoggedLines(stdout))
    {
      ghost var base := log;
      ghost var lines: seq<string> := [];
      var stream := stdout;
      while true
        invariant lines + LoggedLines(stream) == LoggedLines(stdout)
        invariant log == base + OutputRecords(lines)
        decreases |stream|
      {
        var line := ReadLine(stream, LogLineMaxLength);
        if line == "" {
          ReadEnd(stream, lines, stdout);
          return;
        }
        var rest := stream[|line|..];
        var stripped := RStripLineEnds(line);
        ReadStep(stream, rest, lines, line, stdout);
        OutputRecordsSnoc(lines, stripped);
        log := log + [Output(stripped)];
        lines := lines + [stripped];
        stream := rest;
      }
    }

    /** `run()`: refuse a second run of a started process; otherwise spawn,
        release the latch, and either record the failed start or log the
        whole output, reap the process, and call the callback. An exception
        the spawn raises other than `OSError` propagates. */
    method Run(spawn: SpawnOutcome, currentUser: string, payload: string, stdout: string, exitStatus: int)
      returns (r: Outcome)
      requires Valid()
      modifies this
      ensures Valid()
      ensures old(process).Some? ==> r == Fail(RuntimeError(AlreadyRunMessage)) && unchanged(this)
      // an exception other than `OSError` from the spawn leaves `run` before
      // the latch is set: nothing is recorded and the callback is not called
      ensures old(process).None? && spawn.SpawnRaised? ==>
                && r == Fail(spawn.error)
                && process == old(process) && startFailed == old(startFailed)
                && hasStartedLatch == old(hasStartedLatch)
                && callbackSaw == old(callbackSaw) && dispatched == old(dispatched)
                && log == old(log) + [RunningCommand(CommandLineForLogger(currentUser, payload))]
      ensures old(process).None? && !spawn.SpawnRaised? ==>
                && r == Pass && HasStarted() && dispatched == old(dispatched)
      // failed start: flagged, no process, so no exit code and not running
      ensures old(process).None? && spawn.SpawnFailed? ==>
                && process.None? && FailedToStart()
                // the callback runs once the failure is recorded and the latch set
                && callbackSaw == old(callbackSaw) + (if hasCallback then [CallbackView(None, true, true, |log|)] else [])
                && log == old(log) + [RunningCommand(CommandLineForLogger(currentUser, payload)),
                                      ProcessFailedToStart(spawn.reason)]
      // successful start: all output logged, then reaped with the exit status
      ensures old(process).None? && spawn.Spawned? ==>
                && process == Some(Process(spawn.pid, SpawnCommand(os, user, currentUser, args, payload), Some(exitStatus)))
                && startFailed == old(startFailed)
                // the callback runs after every line is logged and `wait()` has
                // recorded the exit status
                && callbackSaw == old(callbackSaw) +
                     (if hasCallback then [CallbackView(Some(exitStatus), old(startFailed), true, |log|)] else [])
                && log == old(log) + [RunningCommand(CommandLineForLogger(currentUser, payload)),
                                      StartedAsPid(spawn.pid)]
                                   + OutputRecords(LoggedLines(stdout))
    {
      if process.Some? {
        return Fail(RuntimeError(AlreadyRunMessage));
      }
      var started := StartSubprocess(spawn, currentUser, payload);
      if started.Err? {
        return Fail(started.error);
      }
      process := started.value;
      hasStartedLatch := true;
      if process.None? {
        RecordFailedStart();
        return Pass;
      }
      ghost var logged := log;
      FinishRun(stdout, exitStatus);
      AppendAfterLast(logged, StartedAsPid(spawn.pid), OutputRecords(LoggedLines(stdout)));
      return Pass;
    }

    /** The part of `run()` after a failed spawn: set `_start_failed` and call
        the callback. */
    method RecordFailedStart()
      requires Valid() && process.None? && hasStartedLatch
      modifies this`startFailed, this`callbackSaw
      ensures Valid() && startFailed
      // the callback runs once the failure is recorded and the latch set
      ensures callbackSaw == old(callbackSaw) + (if hasCallback then [CallbackView(None, true, true, |log|)] else [])
    {
      startFailed := true;
      if hasCallback {
        callbackSaw := callbackSaw + [CallbackView(ExitCode(), FailedToStart(), HasStarted(), |log|)];
      }
    }

    /** The part of `run()` after a successful spawn: announce the pid, log
        every line of the output, `wait()` for the exit status, and call the
        callback. */
    method FinishRun(stdout: string, exitStatus: int)
      requires Valid() && process.Some? && process.value.returncode.None?
      modifies this`process, this`log, this`callbackSaw
      ensures Valid()
      ensures process == Some(old(process).value.(returncode := Some(exitStatus)))
      ensures log == old(log) + [StartedAsPid(process.value.pid)] + OutputRecords(LoggedLines(stdout))
      // the callback runs after every line is logged and `wait()` has
      // recorded the exit status
      ensures callbackSaw == old(callbackSaw) +
                (if hasCallback then [CallbackView(Some(exitStatus), startFailed, hasStartedLatch, |log|)] else [])
    {
      log := log + [StartedAsPid(process.value.pid)];
      LogOutput(stdout);
      // wait(): the return code becomes the exit status
      process := Some(process.value.(returncode := Some(exitStatus)));
      if hasCallback {
        callbackSaw := callbackSaw + [CallbackView(ExitCode(), FailedToStart(), HasStarted(), |log|)];
      }
    }

    /** `Popen.poll()` on the tracked process. */
    method Poll(osStatus: Option<int>) returns (returncode: Option<int>)
      requires process.Some?
      modifies this`process
      ensures process == Polled(old(process), osStatus)
      ensures returncode == process.value.returncode
    {
      process := Polled(process, osStatus);
      returncode := process.value.returncode;
    }

    /** `_posix_signal_subprocess`: run the relay on the tracked process and
        log a warning, without raising, if it fails. */
    method PosixSignalSubprocess(signal: string, signalSubprocesses: bool, currentUser: string, relay: RelayResult)
      requires process.Some?
      modifies this`log, this`dispatched
      ensures dispatched == old(dispatched) + [Relay(RelayArgv(user, currentUser, process.value.pid, signal, signalSubprocesses))]
      ensures log == old(log) + RelayRecords(RelayArgv(user, currentUser, process.value.pid, signal, signalSubprocesses),
                                             signal, process.value.pid, relay)
    {
      var cmd: seq<string> := [];
      var signalChild := false;
      if user.Some? {
        if user.value.user != currentUser {
          cmd := cmd + ["sudo", "-u", user.value.user, "-i"];
        }
        signalChild := true;
      }
      cmd := cmd + [PosixSignalScript, IntToString(process.value.pid), signal,
                    BoolToString(signalChild), BoolToString(signalSubprocesses)];
      assert signalChild == user.Some?;
      assert cmd == RelayArgv(user, currentUser, process.value.pid, signal, signalSubprocesses);
      log := log + [RunningRelay(cmd)];
      dispatched := dispatched + [Relay(cmd)];
      if relay.returncode != 0 {
        log := log + [SignalFailed(signal, process.value.pid, relay.output)];
      }
    }

    /** `notify()`: if the process is still running, ask it to stop with a
        terminate signal to the process alone; not supported on Windows. */
    method Notify(osStatus: Option<int>, currentUser: string, relay: RelayResult) returns (r: Outcome)
      requires Valid()
      modifies this`process, this`log, this`dispatched
      ensures Valid()
      ensures process == Polled(old(process), osStatus)
      ensures !IsRunning() ==> r == Pass && log == old(log) && dispatched == old(dispatched)
      ensures IsRunning() && os == Posix ==>
                var argv := RelayArgv(user, currentUser, process.value.pid, "term", false);
                && r == Pass
                && dispatched == old(dispatched) + [Relay(argv)]
                && log == old(log) + RelayRecords(argv, "term", process.value.pid, relay)
      ensures IsRunning() && os == Windows ==>
                r == Fail(NotImplementedError(NotifyUnsupportedMessage)) && log == old(log) && dispatched == old(dispatched)
    {
      r := Pass;
      if process.Some? {
        var returncode := Poll(osStatus);
        if returncode.None? {
          if os == Posix {
            PosixSignalSubprocess("term", false, currentUser, relay);
          } else {
            r := Fail(NotImplementedError(NotifyUnsupportedMessage));
          }
        }
      }
    }

    /** `terminate()`: if the process is still running, kill it and what it
        started: through the relay with a kill signal that cascades on
        POSIX, through the process-tree killer on Windows. */
    method Terminate(osStatus: Option<int>, currentUser: string, relay: RelayResult)
      requires Valid()
      modifies this`process, this`log, this`dispatched
      ensures Valid()
      ensures process == Polled(old(process), osStatus)
      ensures !IsRunning() ==> log == old(log) && dispatched == old(dispatched)
      ensures IsRunning() && os == Posix ==>
                var argv := RelayArgv(user, currentUser, process.value.pid, "kill", true);
                && dispatched == old(dispatched) + [Relay(argv)]
                && log == old(log) + RelayRecords(argv, "kill", process.value.pid, relay)
      ensures IsRunning() && os == Windows ==>
                && dispatched == old(dispatched) + [KillTree(process.value.pid, true)]
                && log == old(log) + [KillingTree(process.value.pid)]
    {
      if process.Some? {
        var returncode := Poll(osStatus);
        if returncode.None? {
          if os == Posix {
            PosixSignalSubprocess("kill", true, currentUser, relay);
          } else {
            log := log + [KillingTree(process.value.pid)];
            dispatched := dispatched + [KillTree(process.value.pid, true)];
          }
        }
      }
    }
  }
}
