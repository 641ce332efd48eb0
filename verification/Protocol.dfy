/** The backup/restore protocol as a step machine. Any number of `create_backup` and `restore`
    calls run concurrently over one try-lock, one database, one Drive folder and one directory of
    temporary files. Every await is a place where another task may run, the call may fail, or the
    caller may be cancelled; a remote request that was cut off may still take effect later. Other
    programs may write the database and add files at any time, and may delete any file that is not
    a pre-restore copy. */
module Protocol {
  import opened Core
  import opened Mapping
  import opened Retention

  /** The contents of the database. */
  type Db(==, !new)

  type TaskId = nat
  type TempId = nat

  /** `load` is what `pg_restore` makes of an archive, if it accepts it; `pg_dump` writes some
      archive that loads back to the database it saw. */
  datatype Config = Config(folder: string, dbName: string, retention: Option<nat>, load: Bytes -> Option<Db>)

  datatype Target = ById(id: string) | Latest

  datatype Call = CreateBackup | Restore(target: Target, confirm: string)

  datatype Outcome =
    | BackedUp(info: BackupInfo)
    | Restored(restored: BackupInfo, preRestore: BackupInfo)
    | Failed(error: Error)
    | Cancelled

  /** What a dump is for: a regular backup, or the copy taken before `restored` overwrites the database. */
  datatype Job = RegularJob | PreRestoreJob(restored: BackupInfo, dst: TempId)

  /** Where a task stands. From `Locked` to `Restoring` it holds the write lock. */
  datatype Pc =
    | Begun
    | Locked
    | Resolved(restored: BackupInfo)
    | Downloading(restored: BackupInfo, dst: TempId)
    | Downloaded(restored: BackupInfo, dst: TempId)
    | Dumping(job: Job, tmp: TempId, seen: bool)
    | Uploading(job: Job, tmp: TempId, meta: DriveFile, created: Option<BackupInfo>)
    | Listing(info: BackupInfo, listed: seq<BackupInfo>, pages: nat)
    | Deleting(info: BackupInfo, todo: seq<BackupInfo>)
    | Restoring(restored: BackupInfo, preRestore: BackupInfo, dst: TempId, committed: bool)
    | Finished(outcome: Outcome)

  datatype Task = Task(call: Call, pc: Pc)

  /** One overwriting of the database by a restore. */
  datatype Overwrite = Overwrite(task: TaskId, source: string, copy: string, lost: Db, gained: Db, touched: bool)

  /** `archive`, `owner`, `snapshots`, `overwrites` and `touched` are history: every file ever stored,
      the task that created each service file, the database each dump saw, every overwriting, and
      whether another program wrote the database since the lock holder's last snapshot or commit. */
  datatype State = State(
    db: Db,
    files: map<string, Stored>,
    temps: map<TempId, Bytes>,
    lock: Option<TaskId>,
    tasks: map<TaskId, Task>,
    lateUploads: map<TaskId, Stored>,
    lateDeletes: set<string>,
    archive: map<string, Stored>,
    owner: map<string, TaskId>,
    snapshots: map<TaskId, Db>,
    overwrites: seq<Overwrite>,
    touched: bool)

  /** What a task does next. */
  datatype Action =
    | Refuse
    | FindBusy
    | Acquire
    | Resolve(info: BackupInfo)
    | RejectFormat
    | OpenTemp(name: TempId)
    | FinishDownload
    | TakeSnapshot
    | FinishDump(archive: Bytes, now: string)
    | StoreUpload(id: string, time: int, md5: Option<string>)
    | FinishUpload
    | ListPage(items: seq<BackupInfo>, more: bool)
    | ListFails
    | RemoveRemote
    | NextDelete
    | Commit
    | FinishRestore
    | Fail(error: Error)
    | Cancel

  /** What happens around the tasks: a new call, a cut-off request that arrives late, other programs. */
  datatype Change =
    | Spawn(t: TaskId, call: Call)
    | LateStore(t: TaskId, id: string, time: int, md5: Option<string>)
    | LateRemove(id: string)
    | WriteDb(db: Db)
    | AddFile(id: string, file: Stored)
    | RemoveFile(id: string)

  datatype Event = Act(t: TaskId, action: Action) | Around(change: Change)

  function Init(db: Db, files: map<string, Stored>): State {
    State(db, files, map[], None, map[], map[], {}, files, map[], map[], [], false)
  }

  predicate ProperIds(files: map<string, Stored>) {
    forall id :: id in files ==> files[id].meta.id == Some(id)
  }

  // ---------- Vocabulary ----------

  function KindOf(call: Call): BackupKind {
    if call.CreateBackup? then Regular else PreRestore
  }

  predicate Holding(pc: Pc) {
    !pc.Begun? && !pc.Finished?
  }

  function JobTemps(job: Job): set<TempId> {
    match job
    case RegularJob => {}
    case PreRestoreJob(_, dst) => {dst}
  }

  /** Temporary files a task keeps alive. */
  function Held(pc: Pc): set<TempId> {
    match pc
    case Downloading(_, dst) => {dst}
    case Downloaded(_, dst) => {dst}
    case Dumping(job, tmp, _) => JobTemps(job) + {tmp}
    case Uploading(job, tmp, _, _) => JobTemps(job) + {tmp}
    case Restoring(_, _, dst, _) => {dst}
    case _ => {}
  }

  predicate MapsTo(file: Stored, info: BackupInfo) {
    ToBackupInfo(file.meta) == Success(info)
  }

  predicate IsPreRestoreCopy(file: Stored) {
    ToBackupInfo(file.meta).Success? && ToBackupInfo(file.meta).value.kind.PreRestore?
  }

  predicate IsPrunable(file: Stored) {
    ToBackupInfo(file.meta).Success? && Prunable(ToBackupInfo(file.meta).value)
  }

  /** `info` describes a stored file that the folder query selects now. */
  predicate Shown(cfg: Config, files: map<string, Stored>, info: BackupInfo) {
    && info.id in files
    && InListing(files[info.id].meta, cfg.folder)
    && MapsTo(files[info.id], info)
  }

  /** What `resolve` may answer: the file with the requested id if it lies in the folder, or a file
      that the latest query selects. */
  predicate Fits(cfg: Config, files: map<string, Stored>, target: Target, info: BackupInfo) {
    && info.id in files
    && MapsTo(files[info.id], info)
    && match target
       case ById(id) => info.id == id && IsInFolder(files[id].meta, cfg.folder)
       case Latest => InLatest(files[info.id].meta, cfg.folder)
  }

  predicate At(s: State, t: TaskId) {
    t in s.tasks
  }

  function PcOf(s: State, t: TaskId): Pc
    requires At(s, t)
  {
    s.tasks[t].pc
  }

  function Moved(s: State, t: TaskId, pc: Pc): State
    requires At(s, t)
  {
    s.(tasks := s.tasks[t := s.tasks[t].(pc := pc)])
  }

  /** The task ends: the guard and its temporary files are dropped, and a remote request it was
      waiting for may still arrive. */
  function Ended(s: State, t: TaskId, outcome: Outcome): State
    requires At(s, t)
  {
    var pc := PcOf(s, t);
    Moved(s, t, Finished(outcome)).(
      lock := if s.lock == Some(t) then None else s.lock,
      temps := s.temps - Held(pc),
      lateUploads :=
        if pc.Uploading? && pc.created.None? && pc.tmp in s.temps
        then s.lateUploads[t := Stored(pc.meta, s.temps[pc.tmp])] else s.lateUploads,
      lateDeletes := s.lateDeletes + PendingDelete(pc))
  }

  function PendingDelete(pc: Pc): set<string> {
    if pc.Deleting? && pc.todo != [] then {pc.todo[0].id} else {}
  }

  function StoredAs(draft: Stored, id: string, time: int, md5: Option<string>): Stored {
    draft.(meta := Created(draft.meta, id, time, |draft.content|, md5))
  }

  /** A new file appears; its id was never used before. */
  function WithFile(s: State, id: string, file: Stored): State {
    s.(files := s.files[id := file], archive := s.archive[id := file])
  }

  // ---------- Steps ----------

  predicate CanAct(cfg: Config, s: State, t: TaskId, a: Action) {
    && At(s, t)
    && var pc, call := PcOf(s, t), s.tasks[t].call;
       match a
       case Refuse => pc.Begun? && !Confirmed(cfg, call)
       case FindBusy => pc.Begun? && Confirmed(cfg, call) && s.lock.Some?
       case Acquire => pc.Begun? && Confirmed(cfg, call) && s.lock.None?
       case Resolve(info) => pc.Locked? && call.Restore? && Fits(cfg, s.files, call.target, info)
       case RejectFormat => pc.Resolved? && !pc.restored.format.PgCustom?
       case OpenTemp(name) => name !in s.temps && WantsTemp(s.tasks[t])
       case FinishDownload => pc.Downloading? && pc.restored.id in s.files
       case TakeSnapshot => pc.Dumping? && !pc.seen
       case FinishDump(archive, _) =>
         pc.Dumping? && pc.seen && t in s.snapshots && cfg.load(archive) == Some(s.snapshots[t])
       case StoreUpload(id, _, _) => pc.Uploading? && pc.created.None? && pc.tmp in s.temps && id !in s.archive
       case FinishUpload => pc.Uploading? && pc.created.Some?
       case ListPage(items, _) =>
         pc.Listing? && cfg.retention.Some? && forall i :: 0 <= i < |items| ==> Shown(cfg, s.files, items[i])
       case ListFails => pc.Listing?
       case RemoveRemote => pc.Deleting? && pc.todo != []
       case NextDelete => pc.Deleting?
       case Commit =>
         pc.Restoring? && !pc.committed && pc.dst in s.temps && cfg.load(s.temps[pc.dst]).Some?
       case FinishRestore => pc.Restoring? && pc.committed
       case Fail(error) => MayFail(pc) && !error.Busy?
       case Cancel => !pc.Finished?
  }

  predicate CanChange(s: State, c: Change) {
    match c
    case Spawn(t, _) => t !in s.tasks
    case LateStore(t, id, _, _) => t in s.lateUploads && id !in s.archive
    case LateRemove(id) => id in s.lateDeletes
    case WriteDb(_) => true
    case AddFile(id, file) => id !in s.archive && file.meta.id == Some(id)
    case RemoveFile(id) => id in s.files && !IsPreRestoreCopy(s.files[id])
  }

  predicate Confirmed(cfg: Config, call: Call) {
    call.Restore? ==> call.confirm == cfg.dbName
  }

  predicate WantsTemp(task: Task) {
    match task.pc
    case Locked => task.call.CreateBackup?
    case Resolved(restored) => restored.format.PgCustom?
    case Downloaded(_, _) => true
    case _ => false
  }

  /** Failures while pruning are only logged, so listing and deleting never fail the call. */
  predicate MayFail(pc: Pc) {
    Holding(pc) && !pc.Listing? && !pc.Deleting?
  }

  function AfterAct(cfg: Config, s: State, t: TaskId, a: Action): State
    requires CanAct(cfg, s, t, a)
  {
    match a
    case Refuse => Ended(s, t, Failed(FailedPrecondition("confirm_db_name")))
    case FindBusy => Ended(s, t, Failed(Busy("another backup or restore is in progress")))
    case Acquire => Moved(s, t, Locked).(lock := Some(t))
    case Resolve(info) => Moved(s, t, Resolved(info))
    case RejectFormat => Ended(s, t, Failed(FailedPrecondition("format")))
    case OpenTemp(name) => ApplyOpenTemp(s, t, name)
    case FinishDownload => ApplyFinishDownload(s, t)
    case TakeSnapshot => ApplyTakeSnapshot(s, t)
    case FinishDump(archive, now) => ApplyFinishDump(cfg, s, t, archive, now)
    case StoreUpload(id, time, md5) => ApplyStoreUpload(s, t, id, time, md5)
    case FinishUpload => ApplyFinishUpload(cfg, s, t)
    case ListPage(items, more) => ApplyListPage(cfg, s, t, items, more)
    case ListFails => Ended(s, t, BackedUp(PcOf(s, t).info))
    case RemoveRemote => s.(files := s.files - {PcOf(s, t).todo[0].id})
    case NextDelete => ApplyNextDelete(s, t)
    case Commit => ApplyCommit(cfg, s, t)
    case FinishRestore => Ended(s, t, Restored(PcOf(s, t).restored, PcOf(s, t).preRestore))
    case Fail(error) => Ended(s, t, Failed(error))
    case Cancel => Ended(s, t, Cancelled)
  }

  function AfterChange(s: State, c: Change): State
    requires CanChange(s, c)
  {
    match c
    case Spawn(t, call) => s.(tasks := s.tasks[t := Task(call, Begun)])
    case LateStore(t, id, time, md5) =>
      WithFile(s, id, StoredAs(s.lateUploads[t], id, time, md5)).(
        owner := s.owner[id := t], lateUploads := s.lateUploads - {t})
    case LateRemove(id) => s.(files := s.files - {id}, lateDeletes := s.lateDeletes - {id})
    case WriteDb(db) => s.(db := db, touched := true)
    case AddFile(id, file) => WithFile(s, id, file)
    case RemoveFile(id) => s.(files := s.files - {id})
  }

  predicate Enabled(cfg: Config, s: State, e: Event) {
    match e
    case Act(t, a) => CanAct(cfg, s, t, a)
    case Around(c) => CanChange(s, c)
  }

  function Apply(cfg: Config, s: State, e: Event): State
    requires Enabled(cfg, s, e)
  {
    match e
    case Act(t, a) => AfterAct(cfg, s, t, a)
    case Around(c) => AfterChange(s, c)
  }

  function ApplyFinishDownload(s: State, t: TaskId): State
    requires At(s, t) && PcOf(s, t).Downloading? && PcOf(s, t).restored.id in s.files
  {
    var pc := PcOf(s, t);
    Moved(s, t, Downloaded(pc.restored, pc.dst)).(temps := s.temps[pc.dst := s.files[pc.restored.id].content])
  }

  function ApplyOpenTemp(s: State, t: TaskId, name: TempId): State
    requires At(s, t) && WantsTemp(s.tasks[t])
  {
    var pc := PcOf(s, t);
    var next :=
      match pc
      case Resolved(restored) => Downloading(restored, name)
      case Downloaded(restored, dst) => Dumping(PreRestoreJob(restored, dst), name, false)
      case _ => Dumping(RegularJob, name, false);
    Moved(s, t, next).(temps := s.temps[name := []])
  }

  /** `pg_dump` has fixed the database it is going to write out; later writes are not in the archive. */
  function ApplyTakeSnapshot(s: State, t: TaskId): State
    requires At(s, t) && PcOf(s, t).Dumping?
  {
    Moved(s, t, PcOf(s, t).(seen := true)).(snapshots := s.snapshots[t := s.db], touched := false)
  }

  function ApplyFinishDump(cfg: Config, s: State, t: TaskId, archive: Bytes, now: string): State
    requires At(s, t) && PcOf(s, t).Dumping?
  {
    var pc := PcOf(s, t);
    var request := PgDumpRequest(cfg.dbName, KindOf(s.tasks[t].call), now);
    Moved(s, t, Uploading(pc.job, pc.tmp, UploadMetadata(request, cfg.folder), None)).(
      temps := s.temps[pc.tmp := archive])
  }

  function ApplyStoreUpload(s: State, t: TaskId, id: string, time: int, md5: Option<string>): State
    requires At(s, t) && PcOf(s, t).Uploading? && PcOf(s, t).tmp in s.temps
  {
    var pc := PcOf(s, t);
    var file := StoredAs(Stored(pc.meta, s.temps[pc.tmp]), id, time, md5);
    var reply := ToBackupInfo(file.meta);
    var created := if reply.Success? then Some(reply.value) else None;
    Moved(WithFile(s, id, file), t, pc.(created := created)).(owner := s.owner[id := t])
  }

  function ApplyFinishUpload(cfg: Config, s: State, t: TaskId): State
    requires At(s, t) && PcOf(s, t).Uploading? && PcOf(s, t).created.Some?
  {
    var pc := PcOf(s, t);
    var info := pc.created.value;
    match pc.job
    case PreRestoreJob(restored, dst) =>
      Moved(s, t, Restoring(restored, info, dst, false)).(temps := s.temps - {pc.tmp})
    case RegularJob =>
      if cfg.retention.None? then Ended(s, t, BackedUp(info))
      else Moved(s, t, Listing(info, [], 0)).(temps := s.temps - {pc.tmp})
  }

  function ApplyListPage(cfg: Config, s: State, t: TaskId, items: seq<BackupInfo>, more: bool): State
    requires At(s, t) && PcOf(s, t).Listing? && cfg.retention.Some?
  {
    var pc := PcOf(s, t);
    var listed := pc.listed + items;
    if !more then Moved(s, t, Deleting(pc.info, RetentionCandidates(listed, cfg.retention.value)))
    else if pc.pages + 1 < MAX_RETENTION_PAGES then Moved(s, t, Listing(pc.info, listed, pc.pages + 1))
    else Ended(s, t, BackedUp(pc.info))
  }

  function ApplyNextDelete(s: State, t: TaskId): State
    requires At(s, t) && PcOf(s, t).Deleting?
  {
    var pc := PcOf(s, t);
    if pc.todo == [] then Ended(s, t, BackedUp(pc.info))
    else Moved(s, t, Deleting(pc.info, pc.todo[1..])).(lateDeletes := s.lateDeletes + {pc.todo[0].id})
  }

  function ApplyCommit(cfg: Config, s: State, t: TaskId): State
    requires At(s, t) && PcOf(s, t).Restoring? && PcOf(s, t).dst in s.temps
    requires cfg.load(s.temps[PcOf(s, t).dst]).Some?
  {
    var pc := PcOf(s, t);
    var gained := cfg.load(s.temps[pc.dst]).value;
    Moved(s, t, pc.(committed := true)).(
      db := gained,
      overwrites := s.overwrites + [Overwrite(t, pc.restored.id, pc.preRestore.id, s.db, gained, s.touched)],
      touched := false)
  }

  /** A run: `events` happen one after another from `s` and end in `s'`. */
  predicate Run(cfg: Config, s: State, events: seq<Event>, s': State)
    decreases |events|
  {
    if events == [] then s' == s
    else Enabled(cfg, s, events[0]) && Run(cfg, Apply(cfg, s, events[0]), events[1..], s')
  }

  predicate Reachable(cfg: Config, db: Db, files: map<string, Stored>, events: seq<Event>, s: State) {
    ProperIds(files) && Run(cfg, Init(db, files), events, s)
  }
}
