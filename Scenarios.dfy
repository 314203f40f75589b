/** Walk-throughs of a `LoggingSubprocess` lifecycle that rely only on the
    contracts of the class: what a caller can conclude after each call. */
module Scenarios {
  import opened SessionTypes
  import opened Subprocess
  import opened Commands
  import opened PyStr

  /** A command that exits at once with status 3. */
  method ExitStatusThree() {
    var made := LoggingSubprocess.New(Posix, ["sh", "-c", "exit 3"], "utf-8", None, true);
    assert made.Ok?;
    var p := made.value;
    var r := p.Run(Spawned(42), "alice", "", "", 3);
    assert r == Pass;
    assert p.Pid() == Some(42) && p.ExitCode() == Some(3) && !p.IsRunning();
    assert p.HasStarted() && !p.FailedToStart();
    // the callback ran once, after the exit status was recorded
    assert p.callbackSaw == [CallbackView(Some(3), false, true, 2)];
    // a second run is refused and changes nothing
    r := p.Run(Spawned(43), "alice", "", "", 0);
    assert r == Fail(RuntimeError(AlreadyRunMessage));
    assert p.ExitCode() == Some(3) && |p.callbackSaw| == 1;
    // cancelling a process that has exited dispatches nothing
    var n := p.Notify(None, "alice", RelayResult(0, ""));
    p.Terminate(None, "alice", RelayResult(0, ""));
    assert n == Pass && p.dispatched == [];
  }

  /** An executable that does not exist. */
  method MissingExecutable() {
    var made := LoggingSubprocess.New(Posix, ["no-such-program"], "utf-8", None, true);
    assert made.Ok?;
    var p := made.value;
    var r := p.Run(SpawnFailed("No such file or directory"), "alice", "", "", 0);
    assert r == Pass;
    assert p.HasStarted() && p.FailedToStart();
    assert p.Pid().None? && p.ExitCode().None? && !p.IsRunning();
    assert p.callbackSaw == [CallbackView(None, true, true, 2)];
    // nothing to signal
    p.Terminate(None, "alice", RelayResult(0, ""));
    assert p.dispatched == [];
    // no process was recorded, so the re-run guard lets a second run through
    r := p.Run(Spawned(7), "alice", "", "", 0);
    assert r == Pass && p.ExitCode() == Some(0) && p.FailedToStart() && |p.callbackSaw| == 2;
  }

  /** An argument with a NUL character: `Popen` raises a `ValueError`,
      which leaves `run` before the latch is set and without the callback. */
  method SpawnRaises() {
    var made := LoggingSubprocess.New(Posix, ["echo", "a\0b"], "utf-8", None, true);
    assert made.Ok?;
    var p := made.value;
    var r := p.Run(SpawnRaised(ValueError("embedded null byte")), "alice", "", "", 0);
    assert r == Fail(ValueError("embedded null byte"));
    assert !p.HasStarted() && !p.FailedToStart() && p.Pid().None? && !p.IsRunning();
    assert p.callbackSaw == [] && |p.log| == 1;
    // no process was recorded, so the re-run guard lets another run through
    r := p.Run(Spawned(5), "alice", "", "", 0);
    assert r == Pass && p.ExitCode() == Some(0) && |p.callbackSaw| == 1;
  }

  /** Terminating a process that runs as another account: the relay is run
      through sudo as that account, and its failure is logged as a warning.
      The state is a running one, with the process and the latch that `run`
      sets (its log records are left out). */
  method TerminateElevated() {
    var made := LoggingSubprocess.New(Posix, ["sleep", "5"], "utf-8", Some(PosixSessionUser("bob")), false);
    assert made.Ok?;
    var p := made.value;
    p.process := Some(Process(9, ["sudo", "-u", "bob", "-i", "setsid", "-w", "sleep", "5"], None));
    p.hasStartedLatch := true;
    assert p.IsRunning();
    p.Terminate(None, "alice", RelayResult(1, "x"));
    var argv := ["sudo", "-u", "bob", "-i", PosixSignalScript, "9", "kill", "True", "True"];
    assert DigitChar(9) == '9' && IntToString(9) == "9";
    assert RelayArgv(Some(PosixSessionUser("bob")), "alice", 9, "kill", true) == argv;
    assert p.dispatched == [Relay(argv)];
    assert p.log == [RunningRelay(argv), SignalFailed("kill", 9, "x")];
    assert p.IsRunning();
  }

  /** Construction errors. */
  method RejectedConstruction() {
    var made := LoggingSubprocess.New(Posix, [], "utf-8", None, false);
    assert made == Err(ValueError(EmptyArgsMessage));
    made := LoggingSubprocess.New(Posix, ["ls"], "utf-8", Some(WindowsSessionUser("bob")), false);
    assert made == Err(ValueError(PosixUserMessage));
    made := LoggingSubprocess.New(Windows, ["dir"], "utf-8", Some(PosixSessionUser("bob")), false);
    assert made == Err(ValueError(WindowsUserMessage));
  }
}
