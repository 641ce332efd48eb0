/** Drive file records and their mapping to backups. */
module Mapping {
  import opened Core
  import opened Format

  const PROP_FORMAT := "format"
  const PROP_KIND := "kind"
  const PROP_DB_NAME := "db_name"
  const OCTET_STREAM := "application/octet-stream"
  const FOLDER_MIME := "application/vnd.google-apps.folder"

  /** The fields of a Drive file that the service requests or writes. */
  datatype DriveFile = DriveFile(
    id: Option<string>,
    name: Option<string>,
    createdTime: Option<int>,
    size: Option<int>,
    md5Checksum: Option<string>,
    appProperties: Option<map<string, string>>,
    parents: Option<seq<string>>,
    trashed: Option<bool>,
    mimeType: Option<string>)

  /** A file as Drive keeps it. */
  datatype Stored = Stored(meta: DriveFile, content: Bytes)

  datatype UploadRequest = UploadRequest(name: string, dbName: string, format: BackupFormat, kind: BackupKind)

  function PgDumpRequest(dbName: string, kind: BackupKind, now: string): UploadRequest {
    UploadRequest(BackupFileName(dbName, kind, now), dbName, PgCustom, kind)
  }

  function Properties(file: DriveFile): map<string, string> {
    if file.appProperties.Some? then file.appProperties.value else map[]
  }

  function Property(file: DriveFile, key: string): Option<string> {
    if key in Properties(file) then Some(Properties(file)[key]) else None
  }

  function Required<T>(value: Option<T>, field: string): Result<T> {
    if value.Some? then Success(value.value) else Failure(Storage("Drive file has no '" + field + "'"))
  }

  function ToBackupInfo(file: DriveFile): Result<BackupInfo> {
    var id :- Required(file.id, "id");
    var name :- Required(file.name, "name");
    var createdAt :- Required(file.createdTime, "createdTime");
    var format :- DetectFormat(name, Property(file, PROP_FORMAT));
    var size := if file.size.Some? && file.size.value >= 0 then Some(file.size.value) else None;
    var kind :- BackupKind.Parse(Property(file, PROP_KIND));
    Success(BackupInfo(id, name, createdAt, size, file.md5Checksum, format, kind))
  }

  predicate IsInFolder(file: DriveFile, folder: string) {
    && file.trashed != Some(true)
    && file.parents.Some?
    && folder in file.parents.value
  }

  /** What the folder query means: the files of the folder, without folders. */
  predicate InListing(file: DriveFile, folder: string) {
    IsInFolder(file, folder) && file.mimeType != Some(FOLDER_MIME)
  }

  /** What the latest query means: the same without pre-restore copies. */
  predicate InLatest(file: DriveFile, folder: string) {
    InListing(file, folder) && Property(file, PROP_KIND) != Some("pre_restore")
  }

  function UploadMetadata(req: UploadRequest, folder: string): DriveFile {
    DriveFile(
      None, Some(req.name), None, None, None,
      Some(map[PROP_FORMAT := req.format.AsStr(), PROP_KIND := req.kind.AsStr(), PROP_DB_NAME := req.dbName]),
      Some([folder]), None, Some(OCTET_STREAM))
  }

  /** What Drive adds to the metadata of a file it has created. */
  function Created(meta: DriveFile, id: string, time: int, size: int, md5: Option<string>): DriveFile {
    meta.(id := Some(id), createdTime := Some(time), size := Some(size), md5Checksum := md5, trashed := Some(false))
  }

  /** A file maps to a pre-restore copy only when its kind property says so, and to a regular
      backup only when it says "regular" or nothing. */
  lemma KindComesFromProperty(file: DriveFile)
    requires ToBackupInfo(file).Success?
    ensures ToBackupInfo(file).value.kind.PreRestore? <==> Property(file, PROP_KIND) == Some("pre_restore")
    ensures ToBackupInfo(file).value.kind.Regular? <==> Property(file, PROP_KIND) in {None, Some("regular")}
  {
  }

  /** When a file maps at all: it has an id, a name and a time, its format property is known or missing with
      a telling name, and its kind property is known or missing; a negative size counts as missing. */
  lemma MapsExactlyWhen(file: DriveFile, info: BackupInfo)
    ensures ToBackupInfo(file) == Success(info) <==>
              && file.id == Some(info.id) && file.name == Some(info.name) && file.createdTime == Some(info.createdAt)
              && info.md5 == file.md5Checksum
              && info.sizeBytes == (if file.size.Some? && file.size.value >= 0 then Some(file.size.value) else None)
              && Property(file, "kind")
                 in (if info.kind.Regular? then {None, Some("regular")} else {Some("pre_restore")})
              && match Property(file, "format")
                 case None => DetectFormat(info.name, None) == Success(info.format)
                 case Some(f) => f == if info.format.PgCustom? then "pg_custom" else "legacy_json_zstd"
  {
  }

  /** A file that does not map lacks a field, which is the storage's fault, or is no backup of ours. */
  lemma UnmappableBecause(file: DriveFile)
    requires ToBackupInfo(file).Failure?
    ensures ToBackupInfo(file).error.Storage? <==> file.id.None? || file.name.None? || file.createdTime.None?
    ensures ToBackupInfo(file).error.Storage? || ToBackupInfo(file).error.FailedPrecondition?
  {
  }

  /** Upload metadata round-trips: the created file maps back to the request's name, format and kind with
      the identity Drive gave it and lies in the folder; listings show it, and "latest" unless it is a
      pre-restore copy. */
  lemma UploadRoundTrip(req: UploadRequest, folder: string, id: string, time: int, size: nat, md5: Option<string>)
    ensures var file := Created(UploadMetadata(req, folder), id, time, size, md5);
            && ToBackupInfo(file) == Success(BackupInfo(id, req.name, time, Some(size), md5, req.format, req.kind))
            && IsInFolder(file, folder) && file.parents == Some([folder])
            && Property(file, "db_name") == Some(req.dbName)
            && InListing(file, folder) && (InLatest(file, folder) <==> req.kind == Regular)
  {
  }

  /** A dump whose format property was lost is still recognised from its generated name. */
  lemma DetectedWithoutFormatProperty(dbName: string, kind: BackupKind, now: string, folder: string,
                                      id: string, time: int, size: nat, md5: Option<string>)
    requires '/' !in now
    ensures var req := PgDumpRequest(dbName, kind, now);
            var file := Created(UploadMetadata(req, folder), id, time, size, md5);
            var stripped := file.(appProperties := Some(file.appProperties.value - {PROP_FORMAT}));
            ToBackupInfo(stripped) == ToBackupInfo(file)
  {
    GeneratedNameDetected(dbName, kind, now);
  }
}
