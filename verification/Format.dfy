/** Backup file names and format detection. A name is classified by the extension of
    its last path component, as the standard path type computes it. */
module Format {
  import opened Core

  const PG_CUSTOM_EXTENSION := "pgdump"
  const LEGACY_EXTENSION := "dump"
  const PRE_RESTORE_PREFIX := "pre_restore_"

  /** `now` is the printed time. */
  function BackupFileName(dbName: string, kind: BackupKind, now: string): string {
    (if kind.PreRestore? then PRE_RESTORE_PREFIX else "")
    + "backup_" + dbName + "_" + now + "." + PG_CUSTOM_EXTENSION
  }

  /** Position just after the last `c` in `s`, or 0. */
  function AfterLast(s: string, c: char): (i: nat)
    ensures i <= |s|
    ensures c !in s[i..]
    ensures i > 0 ==> s[i - 1] == c
  {
    if s == [] then 0
    else if s[|s| - 1] == c then |s|
    else AfterLast(s[..|s| - 1], c)
  }

  /** Last normal component of a path: trailing separators and `.` components are skipped;
      `..`, a bare `.` and an empty path have none. */
  function FileName(path: string): Option<string>
    decreases |path|
  {
    if path == "" then None
    else if path[|path| - 1] == '/' then FileName(path[..|path| - 1])
    else
      var i := AfterLast(path, '/');
      var last := path[i..];
      if last == ".." then None
      else if last == "." then (if i == 0 then None else FileName(path[..i]))
      else Some(last)
  }

  /** Text after the last dot of the file name, unless that dot is its first character. */
  function Extension(path: string): Option<string> {
    match FileName(path)
    case None => None
    case Some(name) =>
      var i := AfterLast(name, '.');
      if i <= 1 then None else Some(name[i..])
  }

  /** The stored property wins; a file without it is classified by extension. */
  function DetectFormat(fileName: string, formatProperty: Option<string>): Result<BackupFormat> {
    match formatProperty
    case Some(value) =>
      (match BackupFormat.Parse(value)
       case Some(f) => Success(f)
       case None => Failure(FailedPrecondition("unknown backup format")))
    case None =>
      var ext := Extension(fileName);
      if ext == Some(PG_CUSTOM_EXTENSION) then Success(PgCustom)
      else if ext == Some(LEGACY_EXTENSION) then Success(LegacyJsonZstd)
      else Failure(FailedPrecondition("could not detect backup format"))
  }

  /** `AfterLast` finds the one split whose right side is free of `c`. */
  lemma AfterLastUnique(s: string, c: char, i: nat)
    requires i <= |s| && c !in s[i..]
    requires i > 0 ==> s[i - 1] == c
    ensures AfterLast(s, c) == i
  {
    var j := AfterLast(s, c);
    assert forall k :: j <= k < |s| ==> s[k] == s[j..][k - j] != c;
    assert forall k :: i <= k < |s| ==> s[k] == s[i..][k - i] != c;
  }

  /** A text whose last component is a plain "stem.ext" has exactly that extension, whatever
      dots and slashes come before the last component. */
  lemma {:induction false} ExtensionOfPlainSuffix(path: string, stem: string, ext: string)
    requires '/' !in stem && '/' !in ext && '.' !in ext
    requires stem != "" && ext != ""
    ensures Extension(path + stem + "." + ext) == Some(ext)
  {
    var whole := path + stem + "." + ext;
    var i := AfterLast(path, '/');
    var last := path[i..] + stem + "." + ext;
    assert whole[i..] == last;
    assert whole[|whole| - 1] == ext[|ext| - 1];
    AfterLastUnique(whole, '/', i);
    assert |last| > 2;
    assert FileName(whole) == Some(last);
    var dot := |path| - i + |stem| + 1;
    assert last[dot..] == ext;
    assert last[dot - 1] == '.';
    AfterLastUnique(last, '.', dot);
  }

  /** On a name without separators the extension is what follows the last dot, provided something comes
      before that dot: a hidden file has none, nor have "." and "..". */
  lemma ExtensionOfName(name: string, ext: string)
    requires '/' !in name
    ensures Extension(name) == Some(ext) <==>
              name != ".." && exists stem :: stem != "" && '.' !in ext && name == stem + "." + ext
  {
    if name != "" {
      AfterLastUnique(name, '/', 0);
    }
    var i := AfterLast(name, '.');
    if Extension(name) == Some(ext) {
      assert name == name[..i - 1] + "." + ext;
    }
    if stem :| name != ".." && stem != "" && '.' !in ext && name == stem + "." + ext {
      assert name[|stem| + 1..] == ext && name[|stem|] == '.';
      AfterLastUnique(name, '.', |stem| + 1);
    }
  }

  /** Trailing separators do not count, and of a path only the last component does. */
  lemma ExtensionOfPath(dir: string, name: string)
    requires '/' !in name && name != "" && name != "."
    ensures Extension(dir + "/" + name) == Extension(name)
    ensures Extension(dir + "/") == Extension(dir)
  {
    var path := dir + "/" + name;
    AfterLastUnique(path, '/', |dir| + 1);
    AfterLastUnique(name, '/', 0);
    assert path[|dir| + 1..] == name && path[|path| - 1] == name[|name| - 1];
    assert (dir + "/")[..|dir|] == dir;
  }

  /** Without the property a plain last component decides: "pgdump" and "dump" name the two formats,
      any other extension is an error. */
  lemma PlainNameDetected(path: string, stem: string, ext: string)
    requires '/' !in stem && '/' !in ext && '.' !in ext
    requires stem != "" && ext != ""
    ensures DetectFormat(path + stem + "." + ext, None).Success? <==> ext in {"pgdump", "dump"}
    ensures ext == "pgdump" ==> DetectFormat(path + stem + "." + ext, None) == Success(PgCustom)
    ensures ext == "dump" ==> DetectFormat(path + stem + "." + ext, None) == Success(LegacyJsonZstd)
  {
    ExtensionOfPlainSuffix(path, stem, ext);
  }

  /** Without the property a plain name has a format exactly when it is a stem with that format's suffix. */
  lemma NameDetected(name: string, format: BackupFormat)
    requires '/' !in name
    ensures DetectFormat(name, None) == Success(format) <==>
              exists stem :: stem != "" && name == stem + "." + (if format.PgCustom? then "pgdump" else "dump")
  {
    ExtensionOfName(name, if format.PgCustom? then "pgdump" else "dump");
  }

  lemma WrappedAlike(head: string, name: string, head': string, name': string, tail: string)
    requires head != "" && head' != "" && (head[0] == head'[0] ==> head == head')
    requires head + name + tail == head' + name' + tail
    ensures head == head' && name == name'
  {
    var whole := head + name + tail;
    assert whole[0] == head[0] && (head' + name' + tail)[0] == head'[0];
    assert name == whole[|head|..|whole| - |tail|];
    assert name' == (head' + name' + tail)[|head'|..|head' + name' + tail| - |tail|];
  }

  function NameHead(kind: BackupKind): string {
    if kind.Regular? then "backup_" else "pre_restore_backup_"
  }

  lemma NameParts(dbName: string, kind: BackupKind, now: string)
    ensures BackupFileName(dbName, kind, now) == NameHead(kind) + dbName + ("_" + now + ".pgdump")
  {
    var tail := "_" + now + ".pgdump";
    assert "_" + now + "." + PG_CUSTOM_EXTENSION == tail;
    assert PRE_RESTORE_PREFIX + "backup_" == "pre_restore_backup_";
  }

  /** A generated name tells the kind by its beginning, and with the time it tells the database. */
  lemma NameTells(dbName: string, kind: BackupKind, other: string, otherKind: BackupKind, now: string)
    ensures (if kind.Regular? then "backup_" else "pre_restore_backup_") <= BackupFileName(dbName, kind, now)
    ensures BackupFileName(dbName, kind, now) == BackupFileName(other, otherKind, now) ==>
              dbName == other && kind == otherKind
  {
    NameParts(dbName, kind, now);
    NameParts(other, otherKind, now);
    if BackupFileName(dbName, kind, now) == BackupFileName(other, otherKind, now) {
      WrappedAlike(NameHead(kind), dbName, NameHead(otherKind), other, "_" + now + ".pgdump");
      assert NameHead(kind)[0] == NameHead(otherKind)[0];
    }
  }

  /** Every generated name is recognised as a pg_dump archive by its extension alone,
      for every database name (dots and slashes included) and kind. */
  lemma GeneratedNameDetected(dbName: string, kind: BackupKind, now: string)
    requires '/' !in now
    ensures DetectFormat(BackupFileName(dbName, kind, now), None) == Success(PgCustom)
  {
    var prefix := if kind.PreRestore? then PRE_RESTORE_PREFIX else "";
    var path := prefix + "backup_" + dbName;
    var stem := "_" + now;
    assert BackupFileName(dbName, kind, now) == path + stem + "." + PG_CUSTOM_EXTENSION;
    PlainNameDetected(path, stem, PG_CUSTOM_EXTENSION);
  }
}
