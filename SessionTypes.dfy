/** Values shared by the subprocess model: optional values, the host
    operating-system family, the account a subprocess runs as, and the
    exceptions the class raises. */
module SessionTypes {

  datatype Option<+T> = None | Some(value: T)

  /** The host family: `os.name == "posix"` (Linux, macOS) or Windows. */
  datatype OsKind = Posix | Windows

  /** The OS account a subprocess should run as. Only the account name is
      modelled; the real classes may carry more, which the subprocess code
      never reads. */
  datatype SessionUser =
    | PosixSessionUser(user: string)
    | WindowsSessionUser(user: string)

  /** A user descriptor fits a host when its variant is the host's. */
  predicate UserMatchesOs(u: SessionUser, os: OsKind) {
    match u
    case PosixSessionUser(_) => os == Posix
    case WindowsSessionUser(_) => os == Windows
  }

  /** The Python exceptions the class raises, with their messages. Any
      other exception that passes through the class (such as the
      `LookupError` of an unknown encoding) is `OtherException`, with the
      name of its Python class. */
  datatype Error =
    | ValueError(message: string)
    | RuntimeError(message: string)
    | NotImplementedError(message: string)
    | OtherException(name: string, message: string)

  /** A call that returns nothing, or raises. */
  datatype Outcome = Pass | Fail(error: Error)

  /** A call that returns a value, or raises. */
  datatype Result<+T> = Ok(value: T) | Err(error: Error)
}
