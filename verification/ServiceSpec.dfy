/** What `create_backup` and `restore` may answer: the outside's part in a call, the one answer of a call
    that nothing hinders, and the only reasons for any other answer. */
module ServiceSpec {
  import opened Core
  import opened Format
  import opened Mapping
  import opened Retention
  import opened Protocol

  /** The errors of the calls the service makes; only its own lock reports `Busy`. */
  type Fault = e: Error | !e.Busy? witness NotFound("")

  /** How an awaited call comes back; `Dropped` is the caller being cancelled there. */
  datatype Reply<+T> = Got(value: T) | Err(error: Fault) | Dropped {
    function Passed<U>(): Reply<U>
      requires !Got?
    {
      if Err? then Err(error) else Dropped
    }

    /** The reply without its value. */
    function Bare(): Reply<()> {
      if Got? then Got(()) else Passed()
    }
  }

  /** What the outside answers to one call, await by await. `others` is what other tasks and programs
      do in the meantime. */
  datatype Script = Script(
    others: nat -> seq<Event>,
    resolved: Reply<BackupInfo>,
    dst: Reply<TempId>,
    downloaded: Reply<()>,
    tmp: Reply<TempId>,
    looks: bool,
    dumped: Reply<(Bytes, string)>,
    arrives: Option<(string, int, Option<string>)>,
    uploaded: Reply<()>,
    pages: nat -> Reply<(seq<BackupInfo>, bool)>,
    removes: nat -> bool,
    deleted: nat -> Reply<()>,
    commits: bool,
    restored: Reply<()>)

  /** Nobody else does anything during the call. */
  ghost predicate Alone(script: Script) {
    forall k: nat :: script.others(k) == []
  }

  // ---------- What the outside can answer ----------
  // A script may offer an answer that is impossible in the state it meets; it then counts as an error.

  /** `get` and `latest` answer with a file that fits the target. */
  function ResolveAnswer(cfg: Config, files: map<string, Stored>, target: Target, offer: Reply<BackupInfo>)
    : Reply<BackupInfo>
  {
    if offer.Got? && !Fits(cfg, files, target, offer.value) then Err(NotFound("no backups")) else offer
  }

  /** A temporary file gets a new name. */
  function TempAnswer(temps: map<TempId, Bytes>, offer: Reply<TempId>): Reply<TempId> {
    if offer.Got? && offer.value in temps then Err(Io("Could not create temporary file")) else offer
  }

  /** A file that is gone cannot be downloaded. */
  function DownloadAnswer(files: map<string, Stored>, info: BackupInfo, offer: Reply<()>): Reply<()> {
    if offer.Got? && info.id !in files then Err(NotFound("File not found")) else offer
  }

  /** `pg_dump` writes an archive of the database it saw. */
  function DumpAnswer(cfg: Config, seen: Option<Db>, offer: Reply<(Bytes, string)>): Reply<(Bytes, string)> {
    if offer.Got? && (seen.None? || cfg.load(offer.value.0) != seen) then Err(Process("pg_dump")) else offer
  }

  /** Drive gives a new file an id it has never used. */
  function Arrival(used: map<string, Stored>, offer: Option<(string, int, Option<string>)>)
    : Option<(string, int, Option<string>)>
  {
    if offer.Some? && offer.value.0 in used then None else offer
  }

  /** A page shows files that the folder query selects now. */
  function PageAnswer(cfg: Config, files: map<string, Stored>, offer: Reply<(seq<BackupInfo>, bool)>)
    : Reply<(seq<BackupInfo>, bool)>
  {
    if offer.Got? && !AllShown(cfg, files, offer.value.0) then Err(Storage("listing")) else offer
  }

  predicate AllShown(cfg: Config, files: map<string, Stored>, items: seq<BackupInfo>) {
    forall i :: 0 <= i < |items| ==> Shown(cfg, files, items[i])
  }

  // ---------- Success ----------

  function DumpMetadata(cfg: Config, call: Call, now: string): DriveFile {
    UploadMetadata(PgDumpRequest(cfg.dbName, KindOf(call), now), cfg.folder)
  }

  /** The call got as far as storing a dump. */
  predicate HasDump(script: Script) {
    script.dumped.Got? && script.arrives.Some?
  }

  function NewId(script: Script): string
    requires HasDump(script)
  {
    script.arrives.value.0
  }

  /** The file a call stores: the dump, in the folder, under the id Drive gave it. */
  function NewFile(cfg: Config, call: Call, script: Script): Stored
    requires HasDump(script)
  {
    var (id, time, md5) := script.arrives.value;
    var (archive, now) := script.dumped.value;
    Stored(Created(DumpMetadata(cfg, call, now), id, time, |archive|, md5), archive)
  }

  /** Its description, field by field. */
  function NewInfo(cfg: Config, call: Call, script: Script): BackupInfo
    requires HasDump(script)
  {
    var (id, time, md5) := script.arrives.value;
    var (archive, now) := script.dumped.value;
    BackupInfo(id, BackupFileName(cfg.dbName, KindOf(call), now), time, Some(|archive|), md5, PgCustom, KindOf(call))
  }

  lemma NewFileMaps(cfg: Config, call: Call, script: Script)
    requires HasDump(script)
    ensures ToBackupInfo(NewFile(cfg, call, script).meta) == Success(NewInfo(cfg, call, script))
  {
    var (id, time, md5) := script.arrives.value;
    var (archive, now) := script.dumped.value;
    UploadRoundTrip(PgDumpRequest(cfg.dbName, KindOf(call), now), cfg.folder, id, time, |archive|, md5);
  }

  /** The one answer of a call that nothing hindered. */
  predicate Succeeds(cfg: Config, call: Call, script: Script, outcome: Outcome) {
    && HasDump(script)
    && match call
       case CreateBackup => outcome == BackedUp(NewInfo(cfg, call, script))
       case Restore(_, _) =>
         && script.resolved.Got? && script.resolved.value.format == PgCustom
         && outcome == Restored(script.resolved.value, NewInfo(cfg, call, script))
  }

  // ---------- Reasons for any other answer ----------

  /** What can hinder a call that has the lock. `at` is the state in which the outside's answer was met. */
  datatype Obstacle =
    | Nothing
    | NotResolved(at: State)
    | WrongFormat
    | NoDownloadFile(at: State)
    | NotDownloaded(at: State)
    | NoDumpFile(at: State)
    | NotDumped(at: State)
    | NotStored(at: State)
    | NoUploadReply
    | NotLoaded(at: State)
    | NoRestoreReply
    | PruningDropped(k: nat)

  /** The answer the call ran into; `Got` means that the obstacle is none. */
  function Met(cfg: Config, call: Call, script: Script, why: Obstacle): Reply<()> {
    match why
    case Nothing => Got(())
    case NotResolved(at) =>
      if call.Restore? then ResolveAnswer(cfg, at.files, call.target, script.resolved).Bare() else Got(())
    case WrongFormat =>
      if script.resolved.Got? && script.resolved.value.format != PgCustom then Err(FailedPrecondition("format"))
      else Got(())
    case NoDownloadFile(at) => TempAnswer(at.temps, script.dst).Bare()
    case NotDownloaded(at) =>
      if script.resolved.Got? then DownloadAnswer(at.files, script.resolved.value, script.downloaded) else Got(())
    case NoDumpFile(at) => TempAnswer(at.temps, script.tmp).Bare()
    case NotDumped(at) => DumpAnswer(cfg, if script.looks then Some(at.db) else None, script.dumped).Bare()
    case NotStored(at) =>
      if script.uploaded.Got? && Arrival(at.archive, script.arrives).None? then Err(Storage("upload")) else Got(())
    case NoUploadReply => script.uploaded
    case NotLoaded(at) =>
      if script.restored.Got? && script.dst.Got? && script.dst.value in at.temps
         && (!script.commits || cfg.load(at.temps[script.dst.value]).None?)
      then Err(Process("pg_restore")) else Got(())
    case NoRestoreReply => script.restored
    case PruningDropped(k) =>
      if script.pages(k).Dropped? || script.deleted(k).Dropped? then Dropped else Got(())
  }

  /** Where the call stood when it met the obstacle. */
  predicate MetThere(why: Obstacle, pc: Pc) {
    match why
    case NotResolved(_) => pc.Locked?
    case NoDownloadFile(_) => pc.Resolved?
    case NotDownloaded(_) => pc.Downloading?
    case NoDumpFile(_) => pc.Locked? || pc.Downloaded?
    case NotDumped(_) => pc.Dumping? && !pc.seen
    case NotStored(_) => pc.Uploading? && pc.created.None?
    case NotLoaded(_) => pc.Restoring? && !pc.committed
    case _ => true
  }

  predicate HasState(why: Obstacle) {
    || why.NotResolved? || why.NoDownloadFile? || why.NotDownloaded? || why.NoDumpFile? || why.NotDumped?
    || why.NotStored? || why.NotLoaded?
  }

  /** The run on `trace` has gone through state `at` since event `from`. */
  ghost predicate Visited(cfg: Config, db: Db, files: map<string, Stored>, trace: seq<Event>, from: nat, at: State) {
    exists k :: from <= k <= |trace| && (Reachable(cfg, db, files, trace[..k], at) <==> true)
  }

  /** The call of `t` really met the obstacle, since event `from`. */
  ghost predicate Occurred(cfg: Config, db: Db, files: map<string, Stored>, trace: seq<Event>, from: nat, t: TaskId,
                           why: Obstacle)
  {
    HasState(why) ==>
      && Visited(cfg, db, files, trace, from, why.at)
      && t in why.at.tasks && MetThere(why, why.at.tasks[t].pc)
  }

  lemma VisitedNow(cfg: Config, db: Db, files: map<string, Stored>, trace: seq<Event>, from: nat, at: State)
    requires (Reachable(cfg, db, files, trace, at) <==> true) && from <= |trace|
    ensures Visited(cfg, db, files, trace, from, at) <==> true
  {
    assert trace[..|trace|] == trace;
  }

  lemma OccurredStays(cfg: Config, db: Db, files: map<string, Stored>, trace: seq<Event>, more: seq<Event>, from: nat,
                      t: TaskId, why: Obstacle)
    requires (Occurred(cfg, db, files, trace, from, t, why) <==> true) && trace <= more
    ensures Occurred(cfg, db, files, more, from, t, why) <==> true
  {
    if HasState(why) {
      var k :| from <= k <= |trace| && (Reachable(cfg, db, files, trace[..k], why.at) <==> true);
      assert more[..k] == trace[..k];
    }
  }

  function Ends(reply: Reply<()>): Outcome
    requires !reply.Got?
  {
    if reply.Err? then Failed(reply.error) else Cancelled
  }

  /** The reply to an upload: the record that came back, if the file was created and the reply came. */
  function UploadReply(script: Script, created: Option<BackupInfo>): Reply<BackupInfo> {
    if !script.uploaded.Got? then script.uploaded.Passed()
    else if created.None? then Err(Storage("upload"))
    else Got(created.value)
  }

  function UploadObstacle(script: Script, created: Option<BackupInfo>, at: State): Obstacle {
    if !script.uploaded.Got? then NoUploadReply else if created.None? then NotStored(at) else Nothing
  }

  lemma UploadHindered(cfg: Config, call: Call, script: Script, created: Option<BackupInfo>, at: State)
    requires created.None? ==> Arrival(at.archive, script.arrives).None?
    ensures var r, why := UploadReply(script, created), UploadObstacle(script, created, at);
            && (r.Got? <==> why.Nothing?) && (!r.Got? ==> Met(cfg, call, script, why) == r.Bare())
  {
  }

  // ---------- A call on its own ----------

  /** Every answer to the dump and the upload is good. */
  predicate GoodDump(cfg: Config, script: Script, db: Db, temps: map<TempId, Bytes>, used: map<string, Stored>) {
    && script.tmp.Got? && script.tmp.value !in temps
    && script.looks && script.dumped.Got? && cfg.load(script.dumped.value.0) == Some(db)
    && script.arrives.Some? && script.arrives.value.0 !in used && script.uploaded.Got?
  }

  /** Every answer to `pg_restore` of this archive is good. */
  predicate GoodLoad(cfg: Config, script: Script, archive: Bytes) {
    script.commits && script.restored.Got? && cfg.load(archive).Some?
  }

  /** Every answer up to the download is good. */
  predicate GoodFetch(script: Script, files: map<string, Stored>, temps: map<TempId, Bytes>, info: BackupInfo) {
    && info.format == PgCustom && info.id in files
    && script.dst.Got? && script.dst.value !in temps && script.downloaded.Got?
  }

  /** Every answer after the resolution is good. */
  predicate GoodRest(cfg: Config, script: Script, info: BackupInfo, db: Db, files: map<string, Stored>,
                     temps: map<TempId, Bytes>, used: map<string, Stored>)
  {
    && GoodFetch(script, files, temps, info)
    && var content := files[info.id].content;
       && GoodDump(cfg, script, db, temps[script.dst.value := content], used)
       && GoodLoad(cfg, script, content)
  }

  /** Every answer to a restore is good. */
  predicate GoodRestore(cfg: Config, script: Script, target: Target, db: Db, files: map<string, Stored>,
                        temps: map<TempId, Bytes>, used: map<string, Stored>)
  {
    && script.resolved.Got? && Fits(cfg, files, target, script.resolved.value)
    && GoodRest(cfg, script, script.resolved.value, db, files, temps, used)
  }

  /** Pages 0 to `n` come through and page `n` is the last. */
  predicate GoodPages(cfg: Config, files: map<string, Stored>, script: Script, n: nat) {
    && n < 100
    && (forall k :: 0 <= k <= n ==> GoodPage(cfg, files, script, k) && (script.pages(k).value.1 <==> k < n))
  }

  predicate GoodPage(cfg: Config, files: map<string, Stored>, script: Script, k: nat) {
    script.pages(k).Got? && AllShown(cfg, files, script.pages(k).value.0)
  }

  /** What the first `n` pages list. */
  function AllPages(script: Script, n: nat): seq<BackupInfo> {
    if n == 0 then []
    else AllPages(script, n - 1) + (if script.pages(n - 1).Got? then script.pages(n - 1).value.0 else [])
  }

  /** The files a complete pruning of `listed` removes: regular pg_dump backups with at least `keep` such
      backups ahead of them, as far as their delete takes effect. */
  function RankRemoved(listed: seq<BackupInfo>, keep: nat, removes: nat -> bool): set<string> {
    set i | 0 <= i < |listed| && listed[i].kind == Regular && listed[i].format == PgCustom
            && Rank(listed, i) >= keep && removes(Rank(listed, i) - keep) :: listed[i].id
  }

  /** The same, along the list of candidates. */
  function Removed(todo: seq<BackupInfo>, removes: nat -> bool, n: nat): set<string>
    requires n <= |todo|
  {
    set i | 0 <= i < n && removes(i) :: todo[i].id
  }

  lemma RemovedNext(todo: seq<BackupInfo>, removes: nat -> bool, n: nat)
    requires n < |todo|
    ensures Removed(todo, removes, n + 1) == Removed(todo, removes, n) + (if removes(n) then {todo[n].id} else {})
  {
  }

  /** No listing comes through. */
  ghost predicate NoListing(cfg: Config, files: map<string, Stored>, script: Script) {
    forall n: nat :: !GoodPages(cfg, files, script, n)
  }

  /** Exactly one listing comes through, with page `k` the last. */
  ghost predicate OnlyListing(cfg: Config, files: map<string, Stored>, script: Script, k: nat) {
    GoodPages(cfg, files, script, k) && forall n: nat :: GoodPages(cfg, files, script, n) ==> n == k
  }

  /** The first pages are good and each says that there are more. */
  predicate PagesGoOn(cfg: Config, files: map<string, Stored>, script: Script, n: nat) {
    forall k :: 0 <= k < n ==> GoodPage(cfg, files, script, k) && script.pages(k).value.1
  }

  /** A page that does not come through, or one too many, and no listing is complete. */
  lemma NoCompleteListing(cfg: Config, files: map<string, Stored>, script: Script, k: nat)
    requires PagesGoOn(cfg, files, script, k)
    requires !GoodPage(cfg, files, script, k) || (script.pages(k).value.1 && k + 1 == 100)
    ensures NoListing(cfg, files, script) <==> true
  {
    forall n: nat | GoodPages(cfg, files, script, n) ensures false {
      GoodPagesAt(cfg, files, script, n, n);
      if n >= k {
        GoodPagesAt(cfg, files, script, n, k);
      }
    }
  }

  lemma GoodPagesAt(cfg: Config, files: map<string, Stored>, script: Script, n: nat, k: nat)
    requires GoodPages(cfg, files, script, n) && k <= n
    ensures GoodPage(cfg, files, script, k) && (script.pages(k).value.1 <==> k < n)
  {
  }

  lemma CompleteListing(cfg: Config, files: map<string, Stored>, script: Script, k: nat)
    requires PagesGoOn(cfg, files, script, k) && k < 100 && GoodPage(cfg, files, script, k) && !script.pages(k).value.1
    ensures OnlyListing(cfg, files, script, k) <==> true
  {
    forall n: nat | GoodPages(cfg, files, script, n) ensures n == k {
      GoodPagesAt(cfg, files, script, n, n);
      if k <= n {
        GoodPagesAt(cfg, files, script, n, k);
      }
    }
  }

  /** No delete is cancelled. */
  ghost predicate DeletesReturn(script: Script) {
    forall k: nat :: !script.deleted(k).Dropped?
  }

  lemma RemovedByRank(listed: seq<BackupInfo>, keep: nat, removes: nat -> bool)
    ensures var todo := RetentionCandidates(listed, keep);
            Removed(todo, removes, |todo|) == RankRemoved(listed, keep, removes)
  {
    var todo := RetentionCandidates(listed, keep);
    forall k | 0 <= k < |todo| && removes(k) ensures todo[k].id in RankRemoved(listed, keep, removes) {
      var i := CandidateHasRank(listed, keep, k);
    }
    forall i | 0 <= i < |listed| && listed[i].kind == Regular && listed[i].format == PgCustom
               && Rank(listed, i) >= keep && removes(Rank(listed, i) - keep)
      ensures listed[i].id in Removed(todo, removes, |todo|)
    {
      CandidateAtRank(listed, keep, i);
    }
  }

  /** What pruning on its own leaves of `before`: everything without a retention count and when no listing
      comes through; otherwise all but the listed regular pg_dump backups of rank `keep` or more whose
      delete takes effect. */
  ghost predicate PrunedAlone(cfg: Config, before: map<string, Stored>, after: map<string, Stored>, script: Script,
                              why: Obstacle)
  {
    if cfg.retention.None? then why.Nothing? && after == before
    else
      && (NoListing(cfg, before, script) ==> after == before)
      && (DeletesReturn(script) ==>
            forall n: nat :: GoodPages(cfg, before, script, n) ==>
              && why.Nothing?
              && after == before - RankRemoved(AllPages(script, n + 1), cfg.retention.value, script.removes))
  }
}
