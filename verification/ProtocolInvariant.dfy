/** The inductive invariant of the protocol: what every step of every task keeps. */
module ProtocolInvariant {
  import opened Core
  import opened Mapping
  import opened Retention
  import opened Protocol

  /** The lock is held by the one task that is between acquisition and release. */
  predicate LockInv(s: State) {
    && (forall t :: t in s.tasks && Holding(s.tasks[t].pc) ==> s.lock == Some(t))
    && (s.lock.Some? ==> s.lock.value in s.tasks && Holding(s.tasks[s.lock.value].pc))
  }

  /** Exactly the lock holder's temporary files exist. */
  predicate TempInv(s: State) {
    s.temps.Keys == if s.lock.Some? && s.lock.value in s.tasks then Held(s.tasks[s.lock.value].pc) else {}
  }

  /** `info` describes the file once stored under its id. */
  predicate Known(s: State, info: BackupInfo) {
    info.id in s.archive && MapsTo(s.archive[info.id], info)
  }

  predicate ArchiveInv(s: State) {
    && ProperIds(s.archive)
    && (forall id :: id in s.files ==> id in s.archive && s.files[id] == s.archive[id])
    && (forall id :: id in s.lateDeletes ==> id in s.archive && IsPrunable(s.archive[id]))
  }

  /** Metadata that, once completed by Drive, maps to a pg_dump backup of this kind in the folder. */
  predicate DumpMeta(cfg: Config, meta: DriveFile, kind: BackupKind) {
    && meta.name.Some?
    && IsInFolder(meta, cfg.folder)
    && meta.mimeType == Some(OCTET_STREAM)
    && meta.appProperties.Some?
    && Property(meta, PROP_FORMAT) == Some("pg_custom")
    && Property(meta, PROP_KIND) == Some(kind.AsStr())
  }

  /** A file that task `t` created holds the database its dump saw, with the kind of its call. */
  predicate HoldsDump(cfg: Config, s: State, t: TaskId, file: Stored) {
    && t in s.tasks && t in s.snapshots
    && cfg.load(file.content) == Some(s.snapshots[t])
    && DumpMeta(cfg, file.meta, KindOf(s.tasks[t].call))
  }

  /** Task `t` has created no file and no upload of it is still on its way. */
  predicate Fresh(s: State, t: TaskId) {
    t !in s.lateUploads && forall id :: id in s.owner ==> s.owner[id] != t
  }

  /** Every service file comes from one task, and no task has two. */
  predicate OwnerInv(cfg: Config, s: State) {
    && (forall id :: id in s.owner ==> id in s.archive && HoldsDump(cfg, s, s.owner[id], s.archive[id])
                                       && s.archive[id].meta.createdTime.Some?)
    && (forall i, j :: i in s.owner && j in s.owner && s.owner[i] == s.owner[j] ==> i == j)
    && (forall t :: t in s.lateUploads ==>
          && HoldsDump(cfg, s, t, s.lateUploads[t])
          && s.tasks[t].pc.Finished? && !s.tasks[t].pc.outcome.BackedUp? && !s.tasks[t].pc.outcome.Restored?
          && forall id :: id in s.owner ==> s.owner[id] != t)
  }

  predicate OwnedBy(s: State, t: TaskId, info: BackupInfo) {
    info.id in s.owner && s.owner[info.id] == t && Known(s, info)
  }

  /** The file a task has created, as far as its position tells. */
  predicate CreatedInv(s: State, t: TaskId)
    requires t in s.tasks
  {
    match s.tasks[t].pc
    case Uploading(_, _, _, created) => if created.Some? then OwnedBy(s, t, created.value) else Fresh(s, t)
    case Listing(info, _, _) => OwnedBy(s, t, info)
    case Deleting(info, _) => OwnedBy(s, t, info)
    case Restoring(_, preRestore, _, _) => OwnedBy(s, t, preRestore)
    case Finished(BackedUp(info)) => s.tasks[t].call.CreateBackup? && OwnedBy(s, t, info)
    case Finished(Restored(_, preRestore)) => s.tasks[t].call.Restore? && OwnedBy(s, t, preRestore)
    case Finished(_) => true
    case _ => Fresh(s, t)
  }

  predicate TasksInv(s: State) {
    && (forall t :: t in s.tasks ==> CreatedInv(s, t))
    && (forall t :: t in s.snapshots ==> t in s.tasks)
  }

  /** The downloaded archive is the content of the file chosen for the restore. */
  predicate HasArchive(s: State, restored: BackupInfo, dst: TempId) {
    && Known(s, restored) && restored.format.PgCustom?
    && dst in s.temps && s.temps[dst] == s.archive[restored.id].content
  }

  predicate JobInv(s: State, t: TaskId, job: Job, tmp: TempId)
    requires t in s.tasks
  {
    && tmp in s.temps
    && match job
       case RegularJob => s.tasks[t].call.CreateBackup?
       case PreRestoreJob(restored, dst) => s.tasks[t].call.Restore? && dst != tmp && HasArchive(s, restored, dst)
  }

  /** Task `t` has overwritten the database from `source` after storing `copy`. */
  predicate Recorded(s: State, t: TaskId, source: string, copy: string) {
    exists i :: 0 <= i < |s.overwrites| && s.overwrites[i].task == t
             && s.overwrites[i].source == source && s.overwrites[i].copy == copy
  }

  /** What the lock holder knows at its position. */
  predicate HolderInv(cfg: Config, s: State, t: TaskId)
    requires t in s.tasks
  {
    match s.tasks[t].pc
    case Locked => true
    case Resolved(restored) => s.tasks[t].call.Restore? && Known(s, restored)
    case Downloading(restored, dst) =>
      s.tasks[t].call.Restore? && Known(s, restored) && restored.format.PgCustom? && dst in s.temps
    case Downloaded(restored, dst) => s.tasks[t].call.Restore? && HasArchive(s, restored, dst)
    case Dumping(job, tmp, seen) =>
      JobInv(s, t, job, tmp) && (seen ==> t in s.snapshots && (!s.touched ==> s.db == s.snapshots[t]))
    case Uploading(job, tmp, meta, created) =>
      && JobInv(s, t, job, tmp)
      && HoldsDump(cfg, s, t, Stored(meta, s.temps[tmp]))
      && (!s.touched ==> s.db == s.snapshots[t])
      && (created.Some? && job.PreRestoreJob? ==> created.value.id in s.files)
    case Listing(_, listed, _) =>
      s.tasks[t].call.CreateBackup? && forall b :: b in listed ==> Known(s, b)
    case Deleting(_, todo) =>
      s.tasks[t].call.CreateBackup? && forall b :: b in todo ==> Known(s, b) && Prunable(b)
    case Restoring(restored, preRestore, dst, committed) =>
      && s.tasks[t].call.Restore?
      && HasArchive(s, restored, dst)
      && preRestore.id in s.files
      && t in s.snapshots
      && (!s.touched && !committed ==> s.db == s.snapshots[t])
      && (!s.touched && committed ==> cfg.load(s.archive[restored.id].content) == Some(s.db))
      && (committed ==> Recorded(s, t, restored.id, preRestore.id))
    case _ => true
  }

  /** One recorded overwriting: its copy is still stored, was made by the restoring task, and holds
      the overwritten database unless another program wrote in between. */
  predicate OverwriteInv(cfg: Config, s: State, o: Overwrite) {
    && o.copy in s.files && o.copy in s.owner && s.owner[o.copy] == o.task
    && o.task in s.tasks && s.tasks[o.task].call.Restore?
    && o.task in s.snapshots
    && (!o.touched ==> s.snapshots[o.task] == o.lost)
    && o.source in s.archive && cfg.load(s.archive[o.source].content) == Some(o.gained)
  }

  predicate OverwritesInv(cfg: Config, s: State) {
    forall i :: 0 <= i < |s.overwrites| ==> OverwriteInv(cfg, s, s.overwrites[i])
  }

  /** A restore that reports success has overwritten the database from the file it names. */
  predicate RestoredInv(s: State) {
    forall t :: t in s.tasks && s.tasks[t].pc.Finished? && s.tasks[t].pc.outcome.Restored? ==>
      Recorded(s, t, s.tasks[t].pc.outcome.restored.id, s.tasks[t].pc.outcome.preRestore.id)
  }

  predicate Clauses(cfg: Config, s: State) {
    && LockInv(s)
    && TempInv(s)
    && ArchiveInv(s)
    && OwnerInv(cfg, s)
    && TasksInv(s)
    && (s.lock.Some? ==> HolderInv(cfg, s, s.lock.value))
    && OverwritesInv(cfg, s)
    && RestoredInv(s)
  }

  /** The invariant. Written as an equivalence, it is passed from proof to proof as one fact. */
  predicate Inv(cfg: Config, s: State) {
    Clauses(cfg, s) <==> true
  }
}
