/** Domain values shared by every component: results, errors, backup kinds and
    formats, and the description of one stored backup. */
module Core {

  datatype Option<+T> = None | Some(value: T)

  /** The failures the service reports; the text of a message is kept only where a caller can see it. */
  datatype Error =
    | NotFound(msg: string)
    | FailedPrecondition(msg: string)
    | Busy(msg: string)
    | Timeout(operation: string)
    | InvalidArgument(msg: string)
    | Storage(msg: string)
    | Unavailable(msg: string)
    | Process(program: string)
    | Io(context: string)

  datatype Result<+T> = Success(value: T) | Failure(error: Error) {
    predicate IsFailure() {
      Failure?
    }

    function PropagateFailure<U>(): Result<U>
      requires Failure?
    {
      Failure(error)
    }

    function Extract(): T
      requires Success?
    {
      value
    }
  }

  type Byte = b: int | 0 <= b < 256
  type Bytes = seq<Byte>

  datatype BackupKind = Regular | PreRestore {
    function AsStr(): string {
      match this
      case Regular => "regular"
      case PreRestore => "pre_restore"
    }

    /** A file without the property is a regular backup; an unknown value is an error. */
    static function Parse(value: Option<string>): Result<BackupKind> {
      match value
      case None => Success(Regular)
      case Some(v) =>
        if v == "regular" then Success(Regular)
        else if v == "pre_restore" then Success(PreRestore)
        else Failure(FailedPrecondition("unknown backup kind"))
    }
  }

  datatype BackupFormat = PgCustom | LegacyJsonZstd {
    function AsStr(): string {
      match this
      case PgCustom => "pg_custom"
      case LegacyJsonZstd => "legacy_json_zstd"
    }

    static function Parse(value: string): Option<BackupFormat> {
      if value == "pg_custom" then Some(PgCustom)
      else if value == "legacy_json_zstd" then Some(LegacyJsonZstd)
      else None
    }
  }

  /** Times are points on one axis; only their order matters here. */
  datatype BackupInfo = BackupInfo(
    id: string,
    name: string,
    createdAt: int,
    sizeBytes: Option<nat>,
    md5: Option<string>,
    format: BackupFormat,
    kind: BackupKind)

  datatype Page<+T> = Page(items: seq<T>, nextPageToken: Option<string>)
}
