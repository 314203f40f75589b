/** The two command vectors `LoggingSubprocess` builds: the one it spawns
    the subprocess with, and the one it runs the POSIX signal relay with.
    The host family and the current account name are parameters here. */
module Commands {
  import opened SessionTypes
  import opened PyStr

  /** The POSIX signal relay script, relative to the package directory (the
      absolute package path is not modelled). */
  const PosixSignalScript: string := "_scripts/_posix/_signal_subprocess.sh"

  /** Switching account is needed exactly when a user is given and it is not
      the account this process runs as. */
  predicate Elevates(user: Option<SessionUser>, currentUser: string) {
    user.Some? && user.value.user != currentUser
  }

  /** `sudo` as the target account with a login shell. */
  function SudoPrefix(account: string): seq<string> {
    ["sudo", "-u", account, "-i"]
  }

  /** The spawn prefix: `sudo` followed by `setsid -w`, so that the command
      leads a new session (and process group) of its own instead of sharing
      the root-owned group of `sudo`. */
  function SessionPrefix(account: string): seq<string> {
    SudoPrefix(account) + ["setsid", "-w"]
  }

  /** Head of the Windows command; the encoded job wrapper follows it. */
  const PowerShellHead: seq<string> := ["powershell.exe", "-ExecutionPolicy", "Unrestricted", "-EncodedCommand"]

  /** The command vector handed to `Popen`. On Windows `payload` stands for
      the base64-encoded job wrapper that the PowerShell generator makes from
      the arguments and the user; its text is not modelled. */
  function SpawnCommand(os: OsKind, user: Option<SessionUser>, currentUser: string,
                        args: seq<string>, payload: string): (command: seq<string>)
    // POSIX: the arguments are passed on verbatim, as the tail of the command
    ensures os == Posix ==> |command| >= |args| && command[|command| - |args|..] == args
    // POSIX: something is put before them exactly when the account must change
    ensures os == Posix ==> (|command| == |args| <==> !Elevates(user, currentUser))
    // ... and what is put before them runs as the named user in a new session
    ensures os == Posix && Elevates(user, currentUser) ==>
              command[..|command| - |args|] == SessionPrefix(user.value.user)
    // Windows: always the five-element PowerShell call, whatever the user
    ensures os == Windows ==> |command| == 5 && command[..4] == PowerShellHead && command[4] == payload
  {
    match os
    case Posix => if Elevates(user, currentUser) then SessionPrefix(user.value.user) + args else args
    case Windows => PowerShellHead + [payload]
  }

  /** The command vector the POSIX signal relay is run with, for the tracked
      process `pid`. */
  function RelayArgv(user: Option<SessionUser>, currentUser: string, pid: int,
                     signal: string, signalSubprocesses: bool): (argv: seq<string>)
    // an optional sudo prefix as the target user, then the five relay arguments
    ensures |argv| == if Elevates(user, currentUser) then 9 else 5
    ensures Elevates(user, currentUser) ==> argv[..4] == SudoPrefix(user.value.user)
    ensures argv[|argv| - 5] == PosixSignalScript
    // the relay reads the tracked pid back from its first argument
    ensures ParseInt(argv[|argv| - 4]) == Some(pid)
    ensures argv[|argv| - 3] == signal
    // "signal the child as its user" is requested whenever a user is given,
    // even one that is the current account
    ensures argv[|argv| - 2] == "True" <==> user.Some?
    ensures argv[|argv| - 1] == "True" <==> signalSubprocesses
  {
    IntStringRoundTrip(pid);
    var relay := [PosixSignalScript, IntToString(pid), signal, BoolToString(user.Some?), BoolToString(signalSubprocesses)];
    if Elevates(user, currentUser) then SudoPrefix(user.value.user) + relay else relay
  }

  /** The relay is elevated exactly when the spawn was, and to the same
      account: only that account (or root) may signal the process group. */
  lemma SignalRunsAsSpawnedAccount(user: Option<SessionUser>, currentUser: string, args: seq<string>,
                                   payload: string, pid: int, signal: string, signalSubprocesses: bool)
    ensures var command := SpawnCommand(Posix, user, currentUser, args, payload);
            var argv := RelayArgv(user, currentUser, pid, signal, signalSubprocesses);
            (|command| > |args| <==> |argv| == 9) &&
            (|argv| == 9 ==> command[2] == argv[2] == user.value.user)
  {
  }
}
