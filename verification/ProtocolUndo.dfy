/** A pre-restore copy is not only kept: from every reachable state with a free lock a restore of it
    can run to success and brings the copied database back. */
module ProtocolUndo {
  import opened Core
  import opened Mapping
  import opened Protocol
  import opened ProtocolSteps
  import opened ProtocolSafety
  import opened ProtocolHistory
  import opened ProtocolWindow

  ghost predicate Reaches(cfg: Config, s: State, s': State) {
    exists events :: Run(cfg, s, events, s')
  }

  /** One more step of a task. */
  lemma Step(cfg: Config, s: State, s1: State, t: TaskId, a: Action) returns (s2: State)
    requires Reaches(cfg, s, s1) && CanAct(cfg, s1, t, a)
    ensures s2 == AfterAct(cfg, s1, t, a) && Reaches(cfg, s, s2)
  {
    var events :| Run(cfg, s, events, s1);
    RunAppend(cfg, s, events, s1, Act(t, a));
    s2 := AfterAct(cfg, s1, t, a);
  }

  /** One more step around the tasks. */
  lemma Happens(cfg: Config, s: State, s1: State, c: Change) returns (s2: State)
    requires Reaches(cfg, s, s1) && CanChange(s1, c)
    ensures s2 == AfterChange(s1, c) && Reaches(cfg, s, s2)
  {
    var events :| Run(cfg, s, events, s1);
    RunAppend(cfg, s, events, s1, Around(c));
    s2 := AfterChange(s1, c);
  }

  lemma ReachesItself(cfg: Config, s: State)
    ensures Reaches(cfg, s, s)
  {
    assert Run(cfg, s, [], s);
  }

  /** The restore of one file gets the lock and resolves the file. */
  lemma BeginRestore(cfg: Config, s: State, t: TaskId, info: BackupInfo) returns (s': State)
    requires s.lock == None && t !in s.tasks
    requires Fits(cfg, s.files, ById(info.id), info)
    ensures Reaches(cfg, s, s') && s'.db == s.db
    ensures s'.files == s.files && s'.archive == s.archive && s'.temps == s.temps
    ensures t in s'.tasks && s'.tasks[t] == Task(Restore(ById(info.id), cfg.dbName), Resolved(info))
  {
    ReachesItself(cfg, s);
    var s1 := Happens(cfg, s, s, Spawn(t, Restore(ById(info.id), cfg.dbName)));
    var s2 := Step(cfg, s, s1, t, Acquire);
    s' := Step(cfg, s, s2, t, Resolve(info));
  }

  /** It opens a temporary file. */
  lemma OpenDownload(cfg: Config, s: State, s1: State, t: TaskId, info: BackupInfo) returns (s': State)
    requires Reaches(cfg, s, s1) && s1.temps == map[]
    requires t in s1.tasks && s1.tasks[t].pc == Resolved(info) && info.format == PgCustom
    ensures Reaches(cfg, s, s') && s'.db == s1.db && s'.archive == s1.archive && s'.files == s1.files
    ensures t in s'.tasks && s'.tasks[t] == Task(s1.tasks[t].call, Downloading(info, 0))
    ensures s'.temps == map[0 := []]
  {
    s' := Step(cfg, s, s1, t, OpenTemp(0));
  }

  /** It downloads the file. */
  lemma DownloadCopy(cfg: Config, s: State, s1: State, t: TaskId, info: BackupInfo) returns (s': State)
    requires Reaches(cfg, s, s1) && s1.temps == map[]
    requires t in s1.tasks && s1.tasks[t].pc == Resolved(info) && info.format == PgCustom && info.id in s1.files
    ensures Reaches(cfg, s, s') && s'.db == s1.db && s'.archive == s1.archive
    ensures t in s'.tasks && s'.tasks[t] == Task(s1.tasks[t].call, Downloaded(info, 0))
    ensures s'.temps == map[0 := s1.files[info.id].content]
  {
    var s2 := OpenDownload(cfg, s, s1, t, info);
    s' := Step(cfg, s, s2, t, FinishDownload);
  }

  lemma OpenCopy(cfg: Config, s: State, s1: State, t: TaskId, info: BackupInfo) returns (s': State)
    requires Reaches(cfg, s, s1)
    requires t in s1.tasks && s1.tasks[t].pc == Downloaded(info, 0) && s1.temps.Keys == {0}
    ensures Reaches(cfg, s, s') && s'.db == s1.db && s'.archive == s1.archive && s'.temps == s1.temps[1 := []]
    ensures t in s'.tasks
    ensures s'.tasks[t] == Task(s1.tasks[t].call, Dumping(PreRestoreJob(info, 0), 1, false))
  {
    s' := Step(cfg, s, s1, t, OpenTemp(1));
  }

  /** It dumps the current database. */
  lemma DumpCopy(cfg: Config, s: State, s1: State, t: TaskId, info: BackupInfo, archive: Bytes) returns (s': State)
    requires Reaches(cfg, s, s1)
    requires t in s1.tasks && s1.tasks[t].pc == Downloaded(info, 0) && s1.tasks[t].call.Restore?
    requires s1.temps.Keys == {0} && cfg.load(archive) == Some(s1.db)
    ensures Reaches(cfg, s, s') && s'.archive == s1.archive && s'.temps == s1.temps[1 := archive]
    ensures var meta := UploadMetadata(PgDumpRequest(cfg.dbName, PreRestore, ""), cfg.folder);
            t in s'.tasks && s'.tasks[t].pc == Uploading(PreRestoreJob(info, 0), 1, meta, None)
  {
    var s2 := OpenCopy(cfg, s, s1, t, info);
    var s3 := Step(cfg, s, s2, t, TakeSnapshot);
    s' := Step(cfg, s, s3, t, FinishDump(archive, ""));
  }

  /** It uploads the dump. */
  lemma UploadCopy(cfg: Config, s: State, s1: State, t: TaskId, info: BackupInfo, dst: TempId, tmp: TempId, id: string)
    returns (s': State)
    requires Reaches(cfg, s, s1)
    requires var meta := UploadMetadata(PgDumpRequest(cfg.dbName, PreRestore, ""), cfg.folder);
             t in s1.tasks && s1.tasks[t].pc == Uploading(PreRestoreJob(info, dst), tmp, meta, None)
    requires dst in s1.temps && tmp in s1.temps && dst != tmp && id !in s1.archive
    ensures Reaches(cfg, s, s') && s'.db == s1.db && s'.overwrites == s1.overwrites && s'.snapshots == s1.snapshots
    ensures t in s'.tasks && s'.tasks[t].pc.Restoring? && !s'.tasks[t].pc.committed
    ensures s'.tasks[t].pc.restored == info && s'.tasks[t].pc.dst == dst
    ensures dst in s'.temps && s'.temps[dst] == s1.temps[dst]
  {
    var s2 := Step(cfg, s, s1, t, StoreUpload(id, 0, None));
    UploadRoundTrip(PgDumpRequest(cfg.dbName, PreRestore, ""), cfg.folder, id, 0, |s1.temps[tmp]|, None);
    s' := Step(cfg, s, s2, t, FinishUpload);
  }

  /** It loads the downloaded file. */
  lemma LoadCopy(cfg: Config, s: State, s1: State, t: TaskId, db: Db) returns (s': State)
    requires Reaches(cfg, s, s1)
    requires t in s1.tasks && s1.tasks[t].pc.Restoring? && !s1.tasks[t].pc.committed
    requires s1.tasks[t].pc.dst in s1.temps && cfg.load(s1.temps[s1.tasks[t].pc.dst]) == Some(db)
    ensures Reaches(cfg, s, s') && s'.db == db
    ensures t in s'.tasks && s'.tasks[t].pc.Finished? && s'.tasks[t].pc.outcome.Restored?
    ensures s'.tasks[t].pc.outcome.restored == s1.tasks[t].pc.restored
  {
    var s2 := Step(cfg, s, s1, t, Commit);
    s' := Step(cfg, s, s2, t, FinishRestore);
  }

  /** A stored copy of `kept` can be restored. */
  lemma RestoreCopy(cfg: Config, s: State, t: TaskId, copy: string, kept: Db, archive: Bytes, id: string)
    returns (s': State)
    requires ProperIds(s.files) && s.lock == None && s.temps == map[] && KeepsCopyOf(cfg, s, copy, kept)
    requires t !in s.tasks && cfg.load(archive) == Some(s.db) && id !in s.archive
    ensures Reaches(cfg, s, s') && s'.db == kept
    ensures t in s'.tasks && s'.tasks[t].pc.Finished? && s'.tasks[t].pc.outcome.Restored?
    ensures s'.tasks[t].pc.outcome.restored.id == copy
  {
    var info := ToBackupInfo(s.files[copy].meta).value;
    assert info.id == copy;
    var s1 := BeginRestore(cfg, s, t, info);
    var s2 := DownloadCopy(cfg, s, s1, t, info);
    var s3 := DumpCopy(cfg, s, s2, t, info, archive);
    var s4 := UploadCopy(cfg, s, s3, t, info, 0, 1, id);
    s' := LoadCopy(cfg, s, s4, t, kept);
  }

  /** Undo is always possible: in every reachable state in which no call holds the lock, for every
      database a restore has overwritten, a restore of its pre-restore copy can run to success, and then
      the database is what the dump of that restore saw: the overwritten one if and only if its window
      was harmless. `archive` is some dump of the current database and `id` the next id that Drive hands
      out. */
  lemma UndoIsPossible(cfg: Config, db: Db, files: map<string, Stored>, events: seq<Event>, s: State, i: nat,
                       t: TaskId, archive: Bytes, id: string)
    returns (s': State, j: nat, l: nat, seen: State)
    requires Reachable(cfg, db, files, events, s) && s.lock == None && i < |s.overwrites|
    requires t !in s.tasks && cfg.load(archive) == Some(s.db) && id !in s.archive
    ensures Reaches(cfg, s, s')
    ensures t in s'.tasks && s'.tasks[t].pc.Finished? && s'.tasks[t].pc.outcome.Restored?
    ensures s'.tasks[t].pc.outcome.restored.id == s.overwrites[i].copy
    ensures j < l < |events|
    ensures events[j] == Act(s.overwrites[i].task, TakeSnapshot) && events[l] == Act(s.overwrites[i].task, Commit)
    ensures (Reachable(cfg, db, files, events[..j], seen) <==> true) && s'.db == seen.db
    ensures s'.db == s.overwrites[i].lost <==> Harmless(events, j, l, seen.db)
  {
    j, l, seen := OverwrittenIsKept(cfg, db, files, events, s, i);
    Exclusion(cfg, db, files, events, s);
    ReachableIds(cfg, db, files, events, s);
    s' := RestoreCopy(cfg, s, t, s.overwrites[i].copy, seen.db, archive, id);
  }

  lemma ReachableIds(cfg: Config, db: Db, files: map<string, Stored>, events: seq<Event>, s: State)
    requires Reachable(cfg, db, files, events, s) <==> true
    ensures ProperIds(s.files)
  {
    ReachableArchive(cfg, db, files, events, s);
  }

  /** When only the service writes the database, every overwritten database can be brought back. */
  lemma EveryRestoreCanBeUndone(cfg: Config, db: Db, files: map<string, Stored>, events: seq<Event>, s: State, i: nat,
                                t: TaskId, archive: Bytes, id: string) returns (s': State)
    requires Reachable(cfg, db, files, events, s) && OnlyService(events) && s.lock == None && i < |s.overwrites|
    requires t !in s.tasks && cfg.load(archive) == Some(s.db) && id !in s.archive
    ensures Reaches(cfg, s, s') && s'.db == s.overwrites[i].lost
    ensures t in s'.tasks && s'.tasks[t].pc.Finished? && s'.tasks[t].pc.outcome.Restored?
  {
    var j, l, seen;
    s', j, l, seen := UndoIsPossible(cfg, db, files, events, s, i, t, archive, id);
    NoWrites(events[j..l]);
  }

  // ---------- Writes inside the window ----------

  /** The last step of a restore into whose window another program wrote. */
  lemma LoseWrite(cfg: Config, db: Db, files: map<string, Stored>, events: seq<Event>, s: State, s1: State, t: TaskId)
    returns (s': State)
    requires (Reachable(cfg, db, files, events, s) <==> true) && Reaches(cfg, s, s1)
    requires CanAct(cfg, s1, t, Commit) && t in s1.snapshots
    ensures Reaches(cfg, s, s') && |s'.overwrites| == |s1.overwrites| + 1
    ensures var o := s'.overwrites[|s1.overwrites|];
            && o.task == t && o.lost == s1.db
            && (KeepsCopyOf(cfg, s', o.copy, s1.db) <==> s1.db == s1.snapshots[t])
  {
    s' := Step(cfg, s, s1, t, Commit);
    CopyKept(cfg, db, files, events, s, s', |s1.overwrites|);
  }

  lemma CopyKept(cfg: Config, db: Db, files: map<string, Stored>, events: seq<Event>, s: State, s': State, i: nat)
    requires (Reachable(cfg, db, files, events, s) <==> true) && Reaches(cfg, s, s') && i < |s'.overwrites|
    ensures var o := s'.overwrites[i];
            o.task in s'.snapshots && forall x :: KeepsCopyOf(cfg, s', o.copy, x) <==> x == s'.snapshots[o.task]
  {
    ReachableInv(cfg, db, files, events, s);
    var more :| Run(cfg, s, more, s');
    InvRun(cfg, s, more, s');
    CopyKeepsSnapshot(cfg, s', i);
  }

  /** A write just before the commit: the restore overwrites it and its copy keeps it only if it equals
      what the dump saw. */
  lemma WriteBeforeCommitIsLost(cfg: Config, db: Db, files: map<string, Stored>, events: seq<Event>, s: State,
                                t: TaskId, written: Db) returns (s': State)
    requires Reachable(cfg, db, files, events, s) && CanAct(cfg, s, t, Commit)
    ensures Reaches(cfg, s, s') && |s'.overwrites| == |s.overwrites| + 1
    ensures var o := s'.overwrites[|s.overwrites|];
            && o.task == t && o.lost == written && t in s.snapshots
            && (KeepsCopyOf(cfg, s', o.copy, written) <==> written == s.snapshots[t])
  {
    CommitterLooked(cfg, db, files, events, s, t);
    ReachesItself(cfg, s);
    var s1 := Happens(cfg, s, s, WriteDb(written));
    s' := LoseWrite(cfg, db, files, events, s, s1, t);
  }

  lemma CommitterLooked(cfg: Config, db: Db, files: map<string, Stored>, events: seq<Event>, s: State, t: TaskId)
    requires (Reachable(cfg, db, files, events, s) <==> true) && CanAct(cfg, s, t, Commit)
    ensures t in s.snapshots
  {
    ReachableInv(cfg, db, files, events, s);
    HolderFacts(cfg, s, t);
  }

  /** The dump has looked at the database and is still writing its archive for the restore of `info`. */
  predicate DumpRuns(cfg: Config, s: State, t: TaskId, info: BackupInfo, dst: TempId, tmp: TempId) {
    && t in s.tasks && s.tasks[t].call.Restore? && s.tasks[t].pc == Dumping(PreRestoreJob(info, dst), tmp, true)
    && t in s.snapshots && dst in s.temps && tmp in s.temps && dst != tmp && cfg.load(s.temps[dst]).Some?
  }

  /** The dump finishes with the database it saw, whatever was written meanwhile. */
  lemma FinishOldDump(cfg: Config, s: State, s1: State, t: TaskId, info: BackupInfo, dst: TempId, tmp: TempId,
                      archive: Bytes) returns (s': State)
    requires Reaches(cfg, s, s1) && DumpRuns(cfg, s1, t, info, dst, tmp) && cfg.load(archive) == Some(s1.snapshots[t])
    ensures Reaches(cfg, s, s') && s'.db == s1.db && s'.overwrites == s1.overwrites && s'.snapshots == s1.snapshots
    ensures s'.archive == s1.archive && s'.temps == s1.temps[tmp := archive]
    ensures var meta := UploadMetadata(PgDumpRequest(cfg.dbName, PreRestore, ""), cfg.folder);
            t in s'.tasks && s'.tasks[t].pc == Uploading(PreRestoreJob(info, dst), tmp, meta, None)
  {
    s' := Step(cfg, s, s1, t, FinishDump(archive, ""));
  }

  /** A write while the dump runs: it is not in the archive, the restore overwrites it, and the copy keeps
      it only if it equals what the dump saw. */
  lemma WriteDuringDumpIsLost(cfg: Config, db: Db, files: map<string, Stored>, events: seq<Event>, s: State,
                              t: TaskId, info: BackupInfo, dst: TempId, tmp: TempId,
                              written: Db, archive: Bytes, id: string) returns (s': State)
    requires Reachable(cfg, db, files, events, s) && DumpRuns(cfg, s, t, info, dst, tmp)
    requires cfg.load(archive) == Some(s.snapshots[t]) && id !in s.archive
    ensures Reaches(cfg, s, s') && |s'.overwrites| == |s.overwrites| + 1
    ensures var o := s'.overwrites[|s.overwrites|];
            && o.task == t && o.lost == written
            && (KeepsCopyOf(cfg, s', o.copy, written) <==> written == s.snapshots[t])
  {
    ReachesItself(cfg, s);
    var s1 := Happens(cfg, s, s, WriteDb(written));
    var s2 := FinishOldDump(cfg, s, s1, t, info, dst, tmp, archive);
    var s3 := UploadCopy(cfg, s, s2, t, info, dst, tmp, id);
    s' := LoseWrite(cfg, db, files, events, s, s3, t);
  }
}
