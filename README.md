# LoggingSubprocess, modelled in Dafny

This project models `LoggingSubprocess` from Open Job Description Sessions
(`src/openjd/sessions/_subprocess.py`). That class runs one operating-system
process, sends each line of its merged stdout/stderr to a logger, and stops
the process when asked. The model covers:

- construction and its `ValueError`s;
- the lifecycle state and its accessors: `pid`, `exit_code`, `is_running`,
  `has_started`, `failed_to_start`;
- `run()`: the re-entry guard, the failed-start path, and the success path
  (announce the pid, log the output, reap, call the callback);
- the spawn command `_start_subprocess` builds:
  - POSIX: `sudo -u U -i setsid -w` in front of the arguments when the
    session user is not the current account;
  - Windows: the five-element PowerShell call;
- the argv of the POSIX signal relay `_posix_signal_subprocess`, including
  the `str()` of the pid and of the two flags;
- the `notify()` / `terminate()` dispatch;
- the output loop: `readline(64000)` until the empty read, then
  `rstrip("\n\r")` on each read.

## Layout

- `SessionTypes.dfy`: the session-user variants, the host family (POSIX or
  Windows), and the error and result values.
- `PyStr.dfy`: Python's `str()` of an integer and of a boolean, with a
  parser that reads an integer back.
- `Commands.dfy`: the spawn command and the relay argv, as pure functions.
- `OutputStream.dfy`: `readline(limit)`, `rstrip`, the sequence of reads,
  the lines that get logged, and their properties.
- `Subprocess.dfy`: the class `LoggingSubprocess`.
  - The `Popen` object is a value: pid, argv and return code.
  - The `_has_started` event is a one-way boolean.
  - The logger is a field that collects the records.
  - The signalling actions taken are collected in a second field.
  - Each callback invocation is recorded, in a ghost field, with the state
    it observes: exit code, failed start, latch, and records logged.
- `Scenarios.dfy`: example lifecycles that use only the class contracts:
  - a command that exits with status 3;
  - a missing executable;
  - terminating a process that runs as another account;
  - rejected constructions.

Some inputs come from outside the class, so they are parameters:

- the host family (`os.name`);
- the current account (`getuser()`);
- whether `Popen` succeeds, and with which pid;
- the text the child writes;
- its exit status;
- the status `poll()` finds;
- the result of running the relay;
- the encoded PowerShell job wrapper.

Where the code and its own comments disagree, the model follows the code.
All line numbers are in `src/openjd/sessions/_subprocess.py`.

- **Re-running after a failed start.** The docstring of `run()` (lines
  134-135) says a subprocess cannot be run once it has been run. But `run()`
  refuses only when a process is recorded (line 138), and a failed start
  leaves `_process` as `None`. So `run()` can be called again, and the
  callback then runs once per call (`Scenarios.MissingExecutable`).
- **The read cap counts characters.** The comment on `LOG_LINE_MAX_LENGTH`
  (line 45) calls the cap "64 KB". `readline` on a text stream counts
  decoded characters, so the cap is 64000 characters, not bytes.
- **`exit_code` during streaming.** The comment in `exit_code` (lines
  97-100) says the return code should become visible only after `run()` has
  finished. But `notify()` and `terminate()` call `poll()` (lines 180, 197),
  and `poll()` can set the return code while `run()` is still draining the
  output. The model specifies `Notify` and `Terminate` over every valid
  state, including one with a process and no return code
  (`Scenarios.TerminateElevated`).

On Windows the command always goes through the PowerShell wrapper, with or
without a session user (lines 232-244); the arguments are never run directly.

## Model

| member | source | states |
|---|---|---|
| Subprocess.ConstructionError | src/openjd/sessions/_subprocess.py:69-74 | There is no error exactly when the argument list is non-empty and any user matches the host's variant. An empty argument list is reported first. Every error is a ValueError. |
| Subprocess.LoggingSubprocess.New | src/openjd/sessions/_subprocess.py:60-83 | Construction fails with exactly the error ConstructionError gives. Otherwise it returns a fresh object that holds the given arguments, encoding and user, in its initial state: no pid, no exit code, not running, not started, not failed, empty log. |
| Subprocess.LoggingSubprocess.constructor | src/openjd/sessions/_subprocess.py:76-83 | Stores the arguments. Starts with no process, no failed start, the latch unset, and nothing logged or dispatched. |
| Subprocess.LoggingSubprocess.Pid | src/openjd/sessions/_subprocess.py:85-89 | There is a pid exactly when a process is recorded, and it is that process's pid. |
| Subprocess.LoggingSubprocess.ExitCode | src/openjd/sessions/_subprocess.py:91-103 | There is never an exit code without a pid. |
| Subprocess.LoggingSubprocess.IsRunning | src/openjd/sessions/_subprocess.py:105-113 | Running holds exactly when there is a pid and no exit code. |
| Subprocess.LoggingSubprocess.HasStarted | src/openjd/sessions/_subprocess.py:115-118 | A recorded process implies that the latch is set. |
| Subprocess.LoggingSubprocess.FailedToStart | src/openjd/sessions/_subprocess.py:120-123 | A failed start implies has_started. |
| Subprocess.LoggingSubprocess.Run | src/openjd/sessions/_subprocess.py:133-168 | When a process is already recorded, fails with the RuntimeError and changes nothing. If the spawn raises an exception other than OSError, that exception propagates after the command is logged: the latch, the process, failed_to_start and the callback are left untouched. Otherwise it returns normally and sets the latch. A failed start records no process and sets failed_to_start, after logging the command and the failure. Only then is the callback called, once, and it sees no exit code, a failed start and the latch set. A successful start logs the command, the pid, and every line the output loop produces, in order. It then records the spawned command with the exit status as return code. Only after that is the callback called, once, and it sees the exit status and the complete log. |
| Subprocess.LoggingSubprocess.RecordFailedStart | src/openjd/sessions/_subprocess.py:143-148 | After a failed spawn, failed_to_start is set. The callback is then called once, and it sees no exit code, a failed start and the latch set. |
| Subprocess.LoggingSubprocess.FinishRun | src/openjd/sessions/_subprocess.py:150-168 | After a successful spawn, the pid is announced and every line of the output is logged. The exit status then becomes the return code. Only after that is the callback called, once, and it sees the exit status and the complete log. |
| Subprocess.LoggingSubprocess.StartSubprocess | src/openjd/sessions/_subprocess.py:206-260 | A process is returned exactly when the spawn succeeds, and it runs the SpawnCommand vector. The command line is logged first: the command on POSIX, the plain arguments on Windows. An OSError from the spawn is caught: it logs the reason and returns no process. Any other exception from the spawn is raised after the command line is logged. |
| Subprocess.LoggingSubprocess.LogOutput | src/openjd/sessions/_subprocess.py:156-163 | The loop appends exactly LoggedLines of the stream to the log, one record per read, in order. |
| Subprocess.Polled | src/openjd/sessions/_subprocess.py:180 | Poll keeps the process and its pid and argv. A known return code never changes. A process still without one takes the status the OS reports, so it is running afterwards exactly when the OS says so. |
| Subprocess.LoggingSubprocess.Poll | src/openjd/sessions/_subprocess.py:180 | The tracked process becomes its polled state, and the new return code is returned. |
| Subprocess.LoggingSubprocess.PosixSignalSubprocess | src/openjd/sessions/_subprocess.py:262-315 | Runs the relay with exactly the RelayArgv vector and logs it. A warning with the relay's output is added exactly when the relay exits non-zero. Nothing is raised. |
| Subprocess.LoggingSubprocess.Notify | src/openjd/sessions/_subprocess.py:170-185 | Before start, or once the process has exited, it does nothing. On a running POSIX process it sends "term" to the process alone through the relay. On a running Windows process it fails with NotImplementedError and sends nothing. |
| Subprocess.LoggingSubprocess.Terminate | src/openjd/sessions/_subprocess.py:187-204 | Before start, or once the process has exited, it does nothing. On a running POSIX process it sends "kill" to the process group through the relay. On Windows it logs and kills the process tree of the pid. |
| Commands.SpawnCommand | src/openjd/sessions/_subprocess.py:212-246 | On POSIX the arguments are the command's tail. Something is put before them exactly when the session user differs from the current account, and that prefix is sudo as the user followed by setsid -w. On Windows the command is always the PowerShell head followed by the encoded wrapper. |
| Commands.RelayArgv | src/openjd/sessions/_subprocess.py:285-303 | The argv has 9 elements (with a sudo prefix as the user) exactly when the account must change, and 5 otherwise. Then come the script, the pid (which parses back to the pid), and the signal. The signal-child flag is "True" exactly when a user is given. The signal-subprocesses flag is "True" exactly when requested. |
| Commands.SignalRunsAsSpawnedAccount | src/openjd/sessions/_subprocess.py:216-222 | The relay is elevated exactly when the spawn was, and to the same account. |
| PyStr.IntStringRoundTrip | src/openjd/sessions/_subprocess.py:298 | The decimal text of any integer parses back to that integer. |
| PyStr.NatToDecimal | src/openjd/sessions/_subprocess.py:298 | The result is a non-empty string of digits: one digit exactly for values below 10, and a leading zero only for 0. |
| PyStr.IntToString | src/openjd/sessions/_subprocess.py:298 | The text is non-empty and starts with a minus sign exactly for negative integers. |
| PyStr.NatDecimalRoundTrip | src/openjd/sessions/_subprocess.py:298 | Reading back the digits of a natural number gives that number. |
| PyStr.BoolToString | src/openjd/sessions/_subprocess.py:300-301 | The flag text is "True" exactly for true and "False" exactly for false. |
| OutputStream.ReadLine | src/openjd/sessions/_subprocess.py:156-159 | A read is at most the limit and at most what is left. It is empty only at the end of the stream. |
| OutputStream.ReadLineIsNextLine | src/openjd/sessions/_subprocess.py:156-159 | A read is a prefix of the stream with no newline before its last character. It stops at the limit, at the end of the stream, or just after a newline. |
| OutputStream.RStripLineEnds | src/openjd/sessions/_subprocess.py:162 | The stripped line is no longer than the read and does not end in a newline or carriage return. |
| OutputStream.RStripRemovesOnlyLineEnds | src/openjd/sessions/_subprocess.py:162 | Stripping keeps a prefix and removes only newlines and carriage returns. |
| OutputStream.Reads | src/openjd/sessions/_subprocess.py:161 | Every read before the empty one is non-empty and at most 64000 characters. |
| OutputStream.ReadsCoverStream | src/openjd/sessions/_subprocess.py:161 | The reads put together are the whole stream: nothing is lost or reordered. |
| OutputStream.LoggedLinesAreBounded | src/openjd/sessions/_subprocess.py:45 | Every logged line is at most 64000 characters and has no trailing line terminator. |
| OutputStream.LoggedLinesAreStrippedReads | src/openjd/sessions/_subprocess.py:161-163 | One line is logged per read, and it is that read stripped. |
| OutputStream.ReadStep | src/openjd/sessions/_subprocess.py:161-163 | One turn of the loop keeps "lines logged so far, then the lines of what is left, are the lines of the whole stream". |
| OutputStream.ReadEnd | src/openjd/sessions/_subprocess.py:161 | The empty read comes only when every line has been logged. |
| OutputStream.BareNewlineIsEmptyLine | src/openjd/sessions/_subprocess.py:161-162 | A bare newline is logged as an empty line, and reading goes on. |
| OutputStream.LongLineIsCut | src/openjd/sessions/_subprocess.py:156-161 | A line longer than the cap is read as its first 64000 characters. The rest of the stream is then read as if it started there. |
| OutputStream.ReadLineOfPlainLine | src/openjd/sessions/_subprocess.py:159 | A line shorter than the limit with no newline in it is read in one piece, together with its newline. |
| OutputStream.StripOfPlainLine | src/openjd/sessions/_subprocess.py:162 | Stripping such a line plus its newline gives back the line. |
| OutputStream.PlainLinesLoggedVerbatim | src/openjd/sessions/_subprocess.py:156-163 | A child that writes plain lines, each followed by a newline, has exactly those lines logged. |

## Left out

- Process creation itself (`Popen`, `sudo`, `setsid`, `start_new_session`,
  `CREATE_NEW_PROCESS_GROUP`, stdin from `/dev/null`, the stderr merge) is
  an operating-system effect. The model receives its outcome as a
  parameter.
- `wait_until_started` blocks on a threading event with a timeout. Threads
  and clocks are not modelled; the latch is the flag it waits on.
- Concurrency is not modelled. `Notify` and `Terminate` act on a whole
  state, not at an interleaving point inside `Run`.
- `kill_windows_process_tree`, `generate_start_job_wrapper` and
  `encode_to_base64` live in other modules, which are not part of this model.
  The process-tree kill is recorded as a dispatched action. The encoded
  wrapper is the `payload` parameter.
- `getuser()` and `os.name` are parameters.
- `shlex.join` / `list2cmdline` quoting and the logger's formatting are left
  out. The log records hold the vectors and values.
- Text decoding and universal-newline translation happen before the loop
  sees the stream, so they are left out. The stream is modelled as the
  decoded characters.
- `POSIX_SIGNAL_SUBPROC_SCRIPT` is modelled by its path relative to the
  package. The absolute install location is left out.
- `WINDOWS_SIGNAL_SUBPROC_SCRIPT` is defined but never used by the class, so
  it is left out.
- Session users carry other fields (such as the group or the password). The
  class uses only the account name, so only that is modelled.
- Exceptions raised inside `generate_start_job_wrapper` or
  `encode_to_base64` on Windows are not modelled. They would propagate before
  the command line is logged. Exceptions raised by `Popen` are modelled: an
  `OSError` is a failed start, and any other exception propagates out of `run`.
- Some exceptions are left out: those raised by reading the stream, by
  `wait()`, by `run()` of the relay, or by the callback.
- Subprocess.LoggingSubprocess.Run: the output stream is passed whole and
  the exit status is fixed up front. The model does not capture a `poll()`
  from another thread setting the return code before `wait()`.
- Subprocess.LoggingSubprocess.HasStarted: states only that a recorded
  process implies the latch. The latch is the stored flag, and `Run` states
  when it is set.
