/** Every step of the protocol keeps the invariant. The frame lemmas say which parts of the state
    each clause depends on; the `Keep` lemmas treat one kind of transition each. A premise written
    `P <==> true` is passed on as one fact. */
module ProtocolSteps {
  import opened Core
  import opened Mapping
  import opened Retention
  import opened Protocol
  import opened ProtocolInvariant

  // ---------- Frames ----------

  /** Stored files stay on record, calls do not change and finished tasks stay as they are. */
  predicate Extends(s: State, s': State) {
    && (forall id :: id in s.archive ==> id in s'.archive && s'.archive[id] == s.archive[id])
    && (forall t :: t in s.tasks ==> t in s'.tasks && s'.tasks[t].call == s.tasks[t].call)
    && (forall t :: t in s.tasks && s.tasks[t].pc.Finished? ==> s'.tasks[t] == s.tasks[t])
  }

  /** No pre-restore copy disappears. */
  predicate CopiesKept(s: State, s': State) {
    forall id :: id in s.files && IsPreRestoreCopy(s.files[id]) ==> id in s'.files
  }

  /** Task `t` is the only one that moved. */
  predicate OnlyMoves(s: State, s': State, t: TaskId) {
    && s'.tasks.Keys == s.tasks.Keys + {t}
    && forall u :: u in s.tasks && u != t ==> s'.tasks[u] == s.tasks[u]
  }

  predicate SameOwners(s: State, s': State) {
    s'.owner == s.owner && s'.lateUploads == s.lateUploads
  }

  lemma DumpMetaMaps(cfg: Config, meta: DriveFile, kind: BackupKind)
    requires DumpMeta(cfg, meta, kind) && meta.id.Some? && meta.createdTime.Some?
    ensures ToBackupInfo(meta).Success?
    ensures ToBackupInfo(meta).value.kind == kind && ToBackupInfo(meta).value.format == PgCustom
    ensures ToBackupInfo(meta).value.id == meta.id.value
  {
  }

  /** A file owned by a restoring task is a pre-restore copy in the folder. */
  lemma OwnedCopy(cfg: Config, s: State, id: string)
    requires ArchiveInv(s) && OwnerInv(cfg, s)
    requires id in s.owner && s.tasks[s.owner[id]].call.Restore?
    ensures id in s.archive && IsPreRestoreCopy(s.archive[id])
  {
    DumpMetaMaps(cfg, s.archive[id].meta, PreRestore);
  }

  lemma OwnerFrame(cfg: Config, s: State, s': State)
    requires OwnerInv(cfg, s) && Extends(s, s') && SameOwners(s, s')
    requires forall t :: t in s.snapshots && !Fresh(s, t) ==> t in s'.snapshots && s'.snapshots[t] == s.snapshots[t]
    ensures OwnerInv(cfg, s')
  {
    forall id | id in s'.owner
      ensures id in s'.archive && HoldsDump(cfg, s', s'.owner[id], s'.archive[id])
      ensures s'.archive[id].meta.createdTime.Some?
    {
      assert HoldsDump(cfg, s, s.owner[id], s.archive[id]);
      assert !Fresh(s, s.owner[id]);
    }
    forall t | t in s'.lateUploads
      ensures HoldsDump(cfg, s', t, s'.lateUploads[t])
    {
      assert HoldsDump(cfg, s, t, s.lateUploads[t]);
      assert !Fresh(s, t);
    }
  }

  lemma CreatedFrame(s: State, s': State, t: TaskId)
    requires t in s.tasks && CreatedInv(s, t)
    requires Extends(s, s') && SameOwners(s, s') && s'.tasks[t] == s.tasks[t]
    ensures CreatedInv(s', t)
  {
  }

  lemma TasksFrame(s: State, s': State, t: TaskId)
    requires TasksInv(s) && Extends(s, s') && SameOwners(s, s') && OnlyMoves(s, s', t)
    requires CreatedInv(s', t)
    requires s'.snapshots.Keys <= s.snapshots.Keys + {t}
    ensures TasksInv(s')
  {
    forall u | u in s'.tasks ensures CreatedInv(s', u) {
      if u != t {
        CreatedFrame(s, s', u);
      }
    }
  }

  lemma OverwritesFrame(cfg: Config, s: State, s': State)
    requires ArchiveInv(s) && OwnerInv(cfg, s) && OverwritesInv(cfg, s)
    requires Extends(s, s') && CopiesKept(s, s') && s'.overwrites == s.overwrites
    requires forall id :: id in s.owner ==> id in s'.owner && s'.owner[id] == s.owner[id]
    requires forall t :: t in s.snapshots && !Fresh(s, t) ==> t in s'.snapshots && s'.snapshots[t] == s.snapshots[t]
    ensures OverwritesInv(cfg, s')
  {
    forall i | 0 <= i < |s'.overwrites| ensures OverwriteInv(cfg, s', s'.overwrites[i]) {
      var o := s.overwrites[i];
      assert OverwriteInv(cfg, s, o);
      OwnedCopy(cfg, s, o.copy);
      assert !Fresh(s, o.task);
    }
  }

  lemma RestoredFrame(s: State, s': State, t: TaskId)
    requires RestoredInv(s) && OnlyMoves(s, s', t) && s.overwrites <= s'.overwrites
    requires s'.tasks[t].pc.Finished? && s'.tasks[t].pc.outcome.Restored? ==>
               Recorded(s', t, s'.tasks[t].pc.outcome.restored.id, s'.tasks[t].pc.outcome.preRestore.id)
    ensures RestoredInv(s')
  {
    forall u | u in s'.tasks && s'.tasks[u].pc.Finished? && s'.tasks[u].pc.outcome.Restored?
      ensures Recorded(s', u, s'.tasks[u].pc.outcome.restored.id, s'.tasks[u].pc.outcome.preRestore.id)
    {
      if u != t {
        RecordedFrame(s, s', u, s.tasks[u].pc.outcome.restored.id, s.tasks[u].pc.outcome.preRestore.id);
      }
    }
  }

  lemma RecordedFrame(s: State, s': State, t: TaskId, source: string, copy: string)
    requires Recorded(s, t, source, copy) && s.overwrites <= s'.overwrites
    ensures Recorded(s', t, source, copy)
  {
    var i :| 0 <= i < |s.overwrites| && s.overwrites[i].task == t
          && s.overwrites[i].source == source && s.overwrites[i].copy == copy;
    assert s'.overwrites[i] == s.overwrites[i];
  }

  lemma HasArchiveFrame(s: State, s': State, restored: BackupInfo, dst: TempId)
    requires HasArchive(s, restored, dst) && Extends(s, s')
    requires dst in s'.temps && s'.temps[dst] == s.temps[dst]
    ensures HasArchive(s', restored, dst)
  {
  }

  /** Nothing the lock holder looks at has changed, except that a write by another program may
      have been noted. */
  predicate HolderSees(s: State, s': State, h: TaskId) {
    && h in s.tasks && h in s'.tasks && s'.tasks[h] == s.tasks[h] && s'.temps == s.temps
    && s'.snapshots == s.snapshots && s'.overwrites == s.overwrites
    && (s'.touched || (s'.db == s.db && s'.touched == s.touched))
  }

  lemma UploadingFrame(cfg: Config, s: State, s': State, h: TaskId)
    requires ArchiveInv(s) && OwnerInv(cfg, s) && Extends(s, s') && CopiesKept(s, s') && HolderSees(s, s', h)
    requires s.tasks[h].pc.Uploading? && HolderInv(cfg, s, h) && CreatedInv(s, h)
    ensures HolderInv(cfg, s', h)
  {
    var pc := s.tasks[h].pc;
    if pc.job.PreRestoreJob? {
      HasArchiveFrame(s, s', pc.job.restored, pc.job.dst);
      if pc.created.Some? {
        OwnedCopy(cfg, s, pc.created.value.id);
      }
    }
  }

  lemma RestoringFrame(cfg: Config, s: State, s': State, h: TaskId)
    requires ArchiveInv(s) && OwnerInv(cfg, s) && Extends(s, s') && CopiesKept(s, s') && HolderSees(s, s', h)
    requires s.tasks[h].pc.Restoring? && HolderInv(cfg, s, h) && CreatedInv(s, h)
    ensures HolderInv(cfg, s', h)
  {
    var pc := s.tasks[h].pc;
    HasArchiveFrame(s, s', pc.restored, pc.dst);
    OwnedCopy(cfg, s, pc.preRestore.id);
    if pc.committed {
      RecordedFrame(s, s', h, pc.restored.id, pc.preRestore.id);
    }
  }

  /** A step of somebody else leaves what the lock holder knows. */
  lemma HolderFrame(cfg: Config, s: State, s': State, h: TaskId)
    requires ArchiveInv(s) && OwnerInv(cfg, s) && Extends(s, s') && CopiesKept(s, s') && HolderSees(s, s', h)
    requires HolderInv(cfg, s, h) && CreatedInv(s, h)
    ensures HolderInv(cfg, s', h)
  {
    if s.tasks[h].pc.Uploading? {
      UploadingFrame(cfg, s, s', h);
    } else if s.tasks[h].pc.Restoring? {
      RestoringFrame(cfg, s, s', h);
    }
  }

  lemma LateFrame(s: State, s': State)
    requires ArchiveInv(s) && Extends(s, s') && ProperIds(s'.archive)
    requires forall id :: id in s'.files ==> id in s'.archive && s'.files[id] == s'.archive[id]
    requires s'.lateDeletes <= s.lateDeletes
    ensures ArchiveInv(s')
  {
  }

  // ---------- Assembly ----------

  predicate SnapshotsKept(s: State, s': State, t: TaskId) {
    && s'.snapshots.Keys <= s.snapshots.Keys + {t}
    && forall u :: u in s.snapshots && !Fresh(s, u) ==> u in s'.snapshots && s'.snapshots[u] == s.snapshots[u]
  }

  /** Task `t` moves under the lock; files and owners stay. */
  predicate Framed(s: State, s': State, t: TaskId) {
    && (s.lock == Some(t) || s.lock == None) && s'.lock == Some(t)
    && OnlyMoves(s, s', t) && Extends(s, s') && SameOwners(s, s') && CopiesKept(s, s')
    && s'.overwrites == s.overwrites && SnapshotsKept(s, s', t)
    && ArchiveInv(s')
  }

  /** Task `t` holds the lock at a position whose claims are true. */
  predicate Settled(cfg: Config, s: State, t: TaskId) {
    && s.lock == Some(t) && t in s.tasks && Holding(s.tasks[t].pc)
    && TempInv(s) && HolderInv(cfg, s, t) && CreatedInv(s, t)
  }

  lemma KeepMove(cfg: Config, s: State, s': State, t: TaskId)
    requires Inv(cfg, s)
    requires Framed(s, s', t) <==> true
    requires Settled(cfg, s', t) <==> true
    ensures Inv(cfg, s')
  {
    OwnerFrame(cfg, s, s');
    TasksFrame(s, s', t);
    OverwritesFrame(cfg, s, s');
    RestoredFrame(s, s', t);
  }

  lemma TasksSame(s: State, s': State)
    requires TasksInv(s) && Extends(s, s') && SameOwners(s, s') && s'.tasks == s.tasks
    requires s'.snapshots == s.snapshots
    ensures TasksInv(s')
  {
    forall u | u in s'.tasks ensures CreatedInv(s', u) {
      CreatedFrame(s, s', u);
    }
  }

  /** A step of the environment: no task moves and the holder's view is untouched. */
  predicate EnvironmentShape(s: State, s': State) {
    && s'.lock == s.lock && s'.tasks == s.tasks && s'.temps == s.temps
    && Extends(s, s') && SameOwners(s, s') && CopiesKept(s, s')
    && s'.overwrites == s.overwrites && s'.snapshots == s.snapshots
    && (s'.touched || (s'.db == s.db && s'.touched == s.touched))
    && ArchiveInv(s')
  }

  lemma KeepEnvironment(cfg: Config, s: State, s': State)
    requires Inv(cfg, s)
    requires EnvironmentShape(s, s') <==> true
    ensures Inv(cfg, s')
  {
    OwnerFrame(cfg, s, s');
    TasksSame(s, s');
    OverwritesFrame(cfg, s, s');
    if s.lock.Some? {
      HolderFrame(cfg, s, s', s.lock.value);
    }
  }

  /** A task without the lock moves, before or after its turn. */
  predicate OutsiderShape(s: State, s': State, t: TaskId) {
    && s'.lock == s.lock && s.lock != Some(t)
    && OnlyMoves(s, s', t) && Extends(s, s') && SameOwners(s, s') && CopiesKept(s, s')
    && s'.temps == s.temps && s'.overwrites == s.overwrites && s'.snapshots == s.snapshots
    && s'.db == s.db && s'.touched == s.touched
    && !Holding(s'.tasks[t].pc) && ArchiveInv(s') && CreatedInv(s', t)
    && (s'.tasks[t].pc.Finished? ==> !s'.tasks[t].pc.outcome.Restored?)
  }

  lemma KeepOutsider(cfg: Config, s: State, s': State, t: TaskId)
    requires Inv(cfg, s)
    requires OutsiderShape(s, s', t) <==> true
    ensures Inv(cfg, s')
  {
    OutsiderHistory(cfg, s, s', t);
    if s.lock.Some? {
      HolderFrame(cfg, s, s', s.lock.value);
    }
  }

  lemma OutsiderHistory(cfg: Config, s: State, s': State, t: TaskId)
    requires Inv(cfg, s)
    requires OutsiderShape(s, s', t) <==> true
    ensures (OwnerInv(cfg, s') <==> true) && (TasksInv(s') <==> true)
    ensures (OverwritesInv(cfg, s') <==> true) && (RestoredInv(s') <==> true)
  {
    OwnerFrame(cfg, s, s');
    TasksFrame(s, s', t);
    OverwritesFrame(cfg, s, s');
    RestoredFrame(s, s', t);
  }

  /** What changes when task `t` ends with the lock in hand and no upload outstanding. */
  predicate ReleaseShape(s: State, s': State, t: TaskId) {
    && s.lock == Some(t) && s'.lock == None
    && OnlyMoves(s, s', t) && Extends(s, s') && SameOwners(s, s') && CopiesKept(s, s')
    && s'.overwrites == s.overwrites && s'.snapshots == s.snapshots
    && s'.tasks[t].pc.Finished? && ArchiveInv(s') && TempInv(s') && CreatedInv(s', t)
    && (s'.tasks[t].pc.outcome.Restored? ==>
          Recorded(s', t, s'.tasks[t].pc.outcome.restored.id, s'.tasks[t].pc.outcome.preRestore.id))
  }

  lemma KeepRelease(cfg: Config, s: State, s': State, t: TaskId)
    requires Inv(cfg, s)
    requires ReleaseShape(s, s', t) <==> true
    ensures Inv(cfg, s')
  {
    OwnerFrame(cfg, s, s');
    TasksFrame(s, s', t);
    OverwritesFrame(cfg, s, s');
    RestoredFrame(s, s', t);
  }

  // ---------- Steps of the environment ----------

  lemma KeepWriteDb(cfg: Config, s: State, db: Db)
    requires Inv(cfg, s)
    ensures Inv(cfg, s.(db := db, touched := true))
  {
    KeepEnvironment(cfg, s, s.(db := db, touched := true));
  }

  lemma AddFileShape(s: State, id: string, file: Stored)
    requires ArchiveInv(s) && id !in s.archive && file.meta.id == Some(id)
    ensures EnvironmentShape(s, WithFile(s, id, file)) <==> true
  {
    NewFileShape(s, WithFile(s, id, file), id, file);
  }

  lemma KeepAddFile(cfg: Config, s: State, id: string, file: Stored)
    requires Inv(cfg, s) && id !in s.archive && file.meta.id == Some(id)
    ensures Inv(cfg, WithFile(s, id, file))
  {
    AddFileShape(s, id, file);
    KeepEnvironment(cfg, s, WithFile(s, id, file));
  }

  lemma RemovalShape(s: State, s': State, id: string)
    requires ArchiveInv(s) && (id in s.archive ==> !IsPreRestoreCopy(s.archive[id]))
    requires s' == s.(files := s.files - {id}, lateDeletes := s'.lateDeletes) && s'.lateDeletes <= s.lateDeletes
    ensures EnvironmentShape(s, s') <==> true
  {
    LateFrame(s, s');
  }

  /** Deleting a file that is not a pre-restore copy. */
  lemma KeepRemoval(cfg: Config, s: State, s': State, id: string)
    requires Inv(cfg, s) && (id in s.archive ==> !IsPreRestoreCopy(s.archive[id]))
    requires s' == s.(files := s.files - {id}, lateDeletes := s'.lateDeletes) && s'.lateDeletes <= s.lateDeletes
    ensures Inv(cfg, s')
  {
    RemovalShape(s, s', id);
    KeepEnvironment(cfg, s, s');
  }

  lemma PrunableIsNoCopy(s: State, b: BackupInfo)
    requires Known(s, b) && Prunable(b)
    ensures IsPrunable(s.archive[b.id]) && !IsPreRestoreCopy(s.archive[b.id])
  {
  }

  lemma KeepRemoveRemote(cfg: Config, s: State, t: TaskId)
    requires Inv(cfg, s) && t in s.tasks && s.tasks[t].pc.Deleting? && s.tasks[t].pc.todo != []
    ensures Inv(cfg, s.(files := s.files - {s.tasks[t].pc.todo[0].id}))
  {
    var b := s.tasks[t].pc.todo[0];
    assert b in s.tasks[t].pc.todo;
    PrunableIsNoCopy(s, b);
    KeepRemoval(cfg, s, s.(files := s.files - {b.id}), b.id);
  }

  /** Dumps on record stay on record. */
  lemma DumpsKept(cfg: Config, s: State, s': State)
    requires OwnerInv(cfg, s) && Extends(s, s') && s'.snapshots == s.snapshots
    ensures forall id :: id in s.owner ==>
              && id in s'.archive && HoldsDump(cfg, s', s.owner[id], s'.archive[id])
              && s'.archive[id].meta.createdTime.Some?
    ensures forall u :: u in s.lateUploads ==> HoldsDump(cfg, s', u, s.lateUploads[u]) && s'.tasks[u] == s.tasks[u]
  {
    forall id | id in s.owner ensures id in s'.archive && HoldsDump(cfg, s', s.owner[id], s'.archive[id]) {
      assert HoldsDump(cfg, s, s.owner[id], s.archive[id]);
    }
    forall u | u in s.lateUploads ensures HoldsDump(cfg, s', u, s.lateUploads[u]) {
      assert HoldsDump(cfg, s, u, s.lateUploads[u]);
    }
  }

  /** The owner map after task `t` has created file `id`. */
  lemma OwnerGrows(cfg: Config, s: State, s': State, t: TaskId, id: string)
    requires OwnerInv(cfg, s) && Extends(s, s') && s'.snapshots == s.snapshots
    requires id !in s.owner && s'.owner == s.owner[id := t]
    requires forall i :: i in s.owner ==> s.owner[i] != t
    requires s'.lateUploads == s.lateUploads - {t}
    requires id in s'.archive && HoldsDump(cfg, s', t, s'.archive[id]) && s'.archive[id].meta.createdTime.Some?
    ensures OwnerInv(cfg, s')
  {
    DumpsKept(cfg, s, s');
  }

  /** Another task's claims survive when task `t` gains a file or leaves an upload behind. */
  lemma CreatedUnaffected(s: State, s': State, t: TaskId, u: TaskId)
    requires u in s.tasks && CreatedInv(s, u) && Extends(s, s') && u in s'.tasks && s'.tasks[u] == s.tasks[u]
    requires forall id :: id in s.owner ==> id in s'.owner && s'.owner[id] == s.owner[id]
    requires forall id :: id in s'.owner && id !in s.owner ==> s'.owner[id] != u
    requires u in s'.lateUploads ==> u in s.lateUploads
    ensures CreatedInv(s', u)
  {
    assert Fresh(s, u) ==> Fresh(s', u);
  }

  lemma TasksAfterCreation(s: State, s': State, t: TaskId, id: string)
    requires TasksInv(s) && Extends(s, s') && OnlyMoves(s, s', t) && s'.snapshots == s.snapshots
    requires id !in s.owner && s'.owner == s.owner[id := t] && s'.lateUploads == s.lateUploads - {t}
    requires CreatedInv(s', t)
    ensures TasksInv(s')
  {
    forall u | u in s'.tasks && u != t ensures CreatedInv(s', u) {
      CreatedUnaffected(s, s', t, u);
    }
  }

  lemma DumpStored(cfg: Config, s: State, t: TaskId, draft: Stored, id: string, time: int, md5: Option<string>)
    requires HoldsDump(cfg, s, t, draft)
    ensures var file := StoredAs(draft, id, time, md5);
            && HoldsDump(cfg, s, t, file) && file.meta.createdTime.Some? && file.meta.id == Some(id)
            && ToBackupInfo(file.meta).Success? && ToBackupInfo(file.meta).value.id == id
  {
    DumpMetaMaps(cfg, StoredAs(draft, id, time, md5).meta, KindOf(s.tasks[t].call));
  }

  lemma KeepLateStore(cfg: Config, s: State, t: TaskId, id: string, time: int, md5: Option<string>)
    requires Inv(cfg, s) && t in s.lateUploads && id !in s.archive
    ensures Inv(cfg, WithFile(s, id, StoredAs(s.lateUploads[t], id, time, md5)).(
                       owner := s.owner[id := t], lateUploads := s.lateUploads - {t}))
  {
    var file := StoredAs(s.lateUploads[t], id, time, md5);
    var s' := WithFile(s, id, file).(owner := s.owner[id := t], lateUploads := s.lateUploads - {t});
    LateStoreFile(cfg, s, s', t, id, file, time, md5);
    LateStoreOwner(cfg, s, s', t, id);
    LateStoreTasks(cfg, s, s', t, id);
    KeepLateCreation(cfg, s, s');
  }

  lemma LateStoreOwner(cfg: Config, s: State, s': State, t: TaskId, id: string)
    requires OwnerInv(cfg, s) <==> true
    requires LateCreationFrame(s, s') <==> true
    requires t in s.lateUploads && id !in s.owner
    requires s'.snapshots == s.snapshots && s'.owner == s.owner[id := t] && s'.lateUploads == s.lateUploads - {t}
    requires id in s'.archive && HoldsDump(cfg, s', t, s'.archive[id]) && s'.archive[id].meta.createdTime.Some?
    ensures OwnerInv(cfg, s') <==> true
  {
    OwnerGrows(cfg, s, s', t, id);
  }

  lemma LateStoreTasks(cfg: Config, s: State, s': State, t: TaskId, id: string)
    requires OwnerInv(cfg, s) && TasksInv(s) <==> true
    requires LateCreationFrame(s, s') <==> true
    requires t in s.lateUploads && id !in s.owner
    requires s'.tasks == s.tasks && s'.snapshots == s.snapshots
    requires s'.owner == s.owner[id := t] && s'.lateUploads == s.lateUploads - {t}
    ensures TasksInv(s') <==> true
  {
    assert t in s.tasks by {
      assert HoldsDump(cfg, s, t, s.lateUploads[t]);
    }
    TasksAfterCreation(s, s', t, id);
  }

  lemma LateStoreFile(cfg: Config, s: State, s': State, t: TaskId, id: string, file: Stored,
                      time: int, md5: Option<string>)
    requires ArchiveInv(s) && t in s.lateUploads && id !in s.archive && id !in s.owner
    requires HoldsDump(cfg, s, t, s.lateUploads[t])
    requires file == StoredAs(s.lateUploads[t], id, time, md5)
    requires s' == WithFile(s, id, file).(owner := s.owner[id := t], lateUploads := s.lateUploads - {t})
    ensures LateCreationFrame(s, s') <==> true
    ensures HoldsDump(cfg, s', t, file) && file.meta.createdTime.Some?
  {
    DumpStored(cfg, s, t, s.lateUploads[t], id, time, md5);
    NewFileShape(s, s', id, file);
    HoldsDumpSame(cfg, s, s', t, file);
  }

  lemma HoldsDumpSame(cfg: Config, s: State, s': State, t: TaskId, file: Stored)
    requires HoldsDump(cfg, s, t, file) && Extends(s, s') && s'.snapshots == s.snapshots
    ensures HoldsDump(cfg, s', t, file)
  {
  }

  lemma NewFileShape(s: State, s': State, id: string, file: Stored)
    requires ArchiveInv(s) && id !in s.archive && file.meta.id == Some(id)
    requires s'.files == s.files[id := file] && s'.archive == s.archive[id := file] && s'.lateDeletes == s.lateDeletes
    requires forall t :: t in s.tasks ==> t in s'.tasks && s'.tasks[t].call == s.tasks[t].call
    requires forall t :: t in s.tasks && s.tasks[t].pc.Finished? ==> s'.tasks[t] == s.tasks[t]
    ensures Extends(s, s') && CopiesKept(s, s') && ArchiveInv(s')
  {
  }

  predicate LateCreationFrame(s: State, s': State) {
    && s'.lock == s.lock && s'.tasks == s.tasks && s'.temps == s.temps
    && Extends(s, s') && CopiesKept(s, s') && s'.overwrites == s.overwrites && s'.snapshots == s.snapshots
    && s'.db == s.db && s'.touched == s.touched
    && (forall id :: id in s.owner ==> id in s'.owner && s'.owner[id] == s.owner[id])
    && ArchiveInv(s')
  }

  lemma KeepLateCreation(cfg: Config, s: State, s': State)
    requires Inv(cfg, s)
    requires LateCreationFrame(s, s') <==> true
    requires OwnerInv(cfg, s') <==> true
    requires TasksInv(s') <==> true
    ensures Inv(cfg, s')
  {
    LateCreationHistory(cfg, s, s');
    LateCreationHolder(cfg, s, s');
  }

  lemma LateCreationHistory(cfg: Config, s: State, s': State)
    requires Inv(cfg, s)
    requires LateCreationFrame(s, s') <==> true
    ensures OverwritesInv(cfg, s') <==> true
  {
    OverwritesFrame(cfg, s, s');
  }

  lemma LateCreationHolder(cfg: Config, s: State, s': State)
    requires Inv(cfg, s)
    requires LateCreationFrame(s, s') <==> true
    ensures s.lock.Some? ==> s.lock.value in s'.tasks && (HolderInv(cfg, s', s.lock.value) <==> true)
  {
    if s.lock.Some? {
      HolderFrame(cfg, s, s', s.lock.value);
    }
  }

  // ---------- Begin and end of a call ----------

  lemma UnknownIsFresh(cfg: Config, s: State, t: TaskId)
    requires OwnerInv(cfg, s) && t !in s.tasks
    ensures Fresh(s, t)
  {
    forall id | id in s.owner ensures s.owner[id] != t {
      assert HoldsDump(cfg, s, s.owner[id], s.archive[id]);
    }
  }

  lemma SpawnShape(cfg: Config, s: State, t: TaskId, call: Call)
    requires LockInv(s) && ArchiveInv(s) && OwnerInv(cfg, s) && t !in s.tasks
    ensures OutsiderShape(s, s.(tasks := s.tasks[t := Task(call, Begun)]), t) <==> true
  {
    UnknownIsFresh(cfg, s, t);
    LateFrame(s, s.(tasks := s.tasks[t := Task(call, Begun)]));
  }

  lemma KeepSpawn(cfg: Config, s: State, t: TaskId, call: Call)
    requires Inv(cfg, s) && t !in s.tasks
    ensures Inv(cfg, s.(tasks := s.tasks[t := Task(call, Begun)]))
  {
    SpawnShape(cfg, s, t, call);
    KeepOutsider(cfg, s, s.(tasks := s.tasks[t := Task(call, Begun)]), t);
  }

  lemma AcquireShape(cfg: Config, s: State, t: TaskId)
    requires TempInv(s) && ArchiveInv(s) && t in s.tasks && s.tasks[t].pc.Begun? && s.lock.None? && CreatedInv(s, t)
    ensures Framed(s, Moved(s, t, Locked).(lock := Some(t)), t) <==> true
    ensures Settled(cfg, Moved(s, t, Locked).(lock := Some(t)), t) <==> true
  {
    LateFrame(s, Moved(s, t, Locked).(lock := Some(t)));
  }

  lemma KeepAcquire(cfg: Config, s: State, t: TaskId)
    requires Inv(cfg, s) && t in s.tasks && s.tasks[t].pc.Begun? && s.lock.None?
    ensures Inv(cfg, Moved(s, t, Locked).(lock := Some(t)))
  {
    AcquireShape(cfg, s, t);
    KeepMove(cfg, s, Moved(s, t, Locked).(lock := Some(t)), t);
  }

  /** What ending a task leaves as it was. */
  lemma EndedShape(s: State, t: TaskId, outcome: Outcome)
    requires t in s.tasks && !s.tasks[t].pc.Finished?
    ensures var s' := Ended(s, t, outcome);
            && OnlyMoves(s, s', t) && Extends(s, s') && CopiesKept(s, s')
            && s'.overwrites == s.overwrites && s'.snapshots == s.snapshots && s'.owner == s.owner
            && s'.db == s.db && s'.touched == s.touched && s'.tasks[t].pc == Finished(outcome)
            && s'.archive == s.archive
  {
  }

  lemma EndedOwners(s: State, t: TaskId, outcome: Outcome)
    requires t in s.tasks && (s.tasks[t].pc.Uploading? ==> s.tasks[t].pc.created.Some?)
    ensures SameOwners(s, Ended(s, t, outcome))
  {
  }

  lemma EndedBegun(s: State, t: TaskId, outcome: Outcome)
    requires t in s.tasks && s.tasks[t].pc.Begun?
    ensures Ended(s, t, outcome).temps == s.temps && Ended(s, t, outcome).lateDeletes == s.lateDeletes
  {
  }

  lemma EndBegunShape(s: State, t: TaskId, outcome: Outcome)
    requires LockInv(s) && ArchiveInv(s) && t in s.tasks && s.tasks[t].pc.Begun?
    requires outcome.Failed? || outcome.Cancelled?
    ensures OutsiderShape(s, Ended(s, t, outcome), t) <==> true
  {
    EndedShape(s, t, outcome);
    EndedOwners(s, t, outcome);
    EndedBegun(s, t, outcome);
    EndedArchive(s, t, outcome);
  }

  /** A call that never got the lock ends. */
  lemma KeepEndBegun(cfg: Config, s: State, t: TaskId, outcome: Outcome)
    requires Inv(cfg, s) && t in s.tasks && s.tasks[t].pc.Begun? && (outcome.Failed? || outcome.Cancelled?)
    ensures Inv(cfg, Ended(s, t, outcome))
  {
    EndBegunShape(s, t, outcome);
    KeepOutsider(cfg, s, Ended(s, t, outcome), t);
  }

  /** The outcome reports what the task has really done. */
  predicate Truthful(s: State, t: TaskId, outcome: Outcome)
    requires t in s.tasks
  {
    match outcome
    case BackedUp(info) => s.tasks[t].call.CreateBackup? && OwnedBy(s, t, info)
    case Restored(restored, preRestore) =>
      s.tasks[t].call.Restore? && OwnedBy(s, t, preRestore) && Recorded(s, t, restored.id, preRestore.id)
    case _ => true
  }

  lemma EndedArchive(s: State, t: TaskId, outcome: Outcome)
    requires t in s.tasks && ArchiveInv(s)
    requires s.tasks[t].pc.Deleting? ==> forall b :: b in s.tasks[t].pc.todo ==> Known(s, b) && Prunable(b)
    ensures ArchiveInv(Ended(s, t, outcome))
  {
    var s', pc := Ended(s, t, outcome), s.tasks[t].pc;
    assert s'.archive == s.archive && s'.files == s.files;
    assert s'.lateDeletes == s.lateDeletes + PendingDelete(pc);
    forall id | id in PendingDelete(pc) ensures id in s.archive && IsPrunable(s.archive[id]) {
      assert pc.todo[0] in pc.todo;
      PrunableIsNoCopy(s, pc.todo[0]);
    }
  }

  lemma EndedTemps(s: State, t: TaskId, outcome: Outcome)
    requires TempInv(s) && s.lock == Some(t) && t in s.tasks
    ensures TempInv(Ended(s, t, outcome)) && Ended(s, t, outcome).temps == map[] && Ended(s, t, outcome).lock == None
  {
    assert (s.temps - Held(s.tasks[t].pc)).Keys == {};
  }

  lemma EndedCreated(s: State, t: TaskId, outcome: Outcome)
    requires t in s.tasks && Truthful(s, t, outcome)
    ensures CreatedInv(Ended(s, t, outcome), t)
    ensures outcome.Restored? ==> Recorded(Ended(s, t, outcome), t, outcome.restored.id, outcome.preRestore.id)
  {
    if outcome.Restored? {
      RecordedFrame(s, Ended(s, t, outcome), t, outcome.restored.id, outcome.preRestore.id);
    }
  }

  lemma EndedRelease(s: State, t: TaskId, outcome: Outcome)
    requires t in s.tasks && !s.tasks[t].pc.Finished? && s.lock == Some(t) && Truthful(s, t, outcome)
    requires TempInv(s) && ArchiveInv(s)
    requires s.tasks[t].pc.Uploading? ==> s.tasks[t].pc.created.Some?
    requires s.tasks[t].pc.Deleting? ==> forall b :: b in s.tasks[t].pc.todo ==> Known(s, b) && Prunable(b)
    ensures ReleaseShape(s, Ended(s, t, outcome), t) <==> true
  {
    EndedShape(s, t, outcome);
    EndedOwners(s, t, outcome);
    EndedArchive(s, t, outcome);
    EndedTemps(s, t, outcome);
    EndedCreated(s, t, outcome);
  }

  /** The lock holder ends with no upload outstanding. */
  lemma KeepEndHolder(cfg: Config, s: State, t: TaskId, outcome: Outcome)
    requires Inv(cfg, s) && s.lock == Some(t) && Truthful(s, t, outcome)
    requires s.tasks[t].pc.Uploading? ==> s.tasks[t].pc.created.Some?
    ensures Inv(cfg, Ended(s, t, outcome))
  {
    EndedRelease(s, t, outcome);
    KeepRelease(cfg, s, Ended(s, t, outcome), t);
  }

  lemma OwnerAfterLoss(cfg: Config, s: State, s': State, t: TaskId, draft: Stored)
    requires OwnerInv(cfg, s) && Extends(s, s') && s'.snapshots == s.snapshots && Fresh(s, t)
    requires s'.owner == s.owner && s'.lateUploads == s.lateUploads[t := draft]
    requires HoldsDump(cfg, s', t, draft)
    requires s'.tasks[t].pc.Finished? && (s'.tasks[t].pc.outcome.Failed? || s'.tasks[t].pc.outcome.Cancelled?)
    ensures OwnerInv(cfg, s')
  {
    DumpsKept(cfg, s, s');
  }

  lemma TasksAfterLoss(s: State, s': State, t: TaskId, draft: Stored)
    requires TasksInv(s) && Extends(s, s') && OnlyMoves(s, s', t) && s'.snapshots == s.snapshots
    requires s'.owner == s.owner && s'.lateUploads == s.lateUploads[t := draft]
    requires s'.tasks[t].pc.Finished? && (s'.tasks[t].pc.outcome.Failed? || s'.tasks[t].pc.outcome.Cancelled?)
    ensures TasksInv(s')
  {
    forall u | u in s'.tasks && u != t ensures CreatedInv(s', u) {
      CreatedUnaffected(s, s', t, u);
    }
  }

  /** The lock holder ends while its upload may still be on its way. */
  lemma KeepEndUploading(cfg: Config, s: State, t: TaskId, outcome: Outcome)
    requires Inv(cfg, s) && s.lock == Some(t) && t in s.tasks && (outcome.Failed? || outcome.Cancelled?)
    requires s.tasks[t].pc.Uploading? && s.tasks[t].pc.created.None?
    ensures Inv(cfg, Ended(s, t, outcome))
  {
    LossFromEnd(cfg, s, t, outcome);
    KeepLoss(cfg, s, Ended(s, t, outcome), t);
  }

  lemma LossFromEnd(cfg: Config, s: State, t: TaskId, outcome: Outcome)
    requires LockInv(s) && TempInv(s) && ArchiveInv(s) && OwnerInv(cfg, s) && TasksInv(s)
    requires s.lock == Some(t) && (outcome.Failed? || outcome.Cancelled?)
    requires s.tasks[t].pc.Uploading? && s.tasks[t].pc.created.None? && HolderInv(cfg, s, t)
    ensures LossShape(cfg, s, Ended(s, t, outcome), t) <==> true
  {
    var s', pc := Ended(s, t, outcome), s.tasks[t].pc;
    var draft := Stored(pc.meta, s.temps[pc.tmp]);
    EndedShape(s, t, outcome);
    EndedDraft(cfg, s, t, outcome);
    EndedArchive(s, t, outcome);
    EndedTemps(s, t, outcome);
    assert CreatedInv(s, t);
    OwnerAfterLoss(cfg, s, s', t, draft);
    TasksAfterLoss(s, s', t, draft);
  }

  lemma EndedDraft(cfg: Config, s: State, t: TaskId, outcome: Outcome)
    requires t in s.tasks && s.tasks[t].pc.Uploading? && s.tasks[t].pc.created.None? && s.tasks[t].pc.tmp in s.temps
    requires HoldsDump(cfg, s, t, Stored(s.tasks[t].pc.meta, s.temps[s.tasks[t].pc.tmp]))
    ensures var draft := Stored(s.tasks[t].pc.meta, s.temps[s.tasks[t].pc.tmp]);
            && Ended(s, t, outcome).lateUploads == s.lateUploads[t := draft]
            && HoldsDump(cfg, Ended(s, t, outcome), t, draft)
  {
  }

  predicate LossShape(cfg: Config, s: State, s': State, t: TaskId) {
    && s.lock == Some(t) && s'.lock == None
    && OnlyMoves(s, s', t) && Extends(s, s') && CopiesKept(s, s') && s'.owner == s.owner
    && s'.overwrites == s.overwrites && s'.snapshots == s.snapshots
    && s'.tasks[t].pc.Finished? && (s'.tasks[t].pc.outcome.Failed? || s'.tasks[t].pc.outcome.Cancelled?)
    && ArchiveInv(s') && TempInv(s') && OwnerInv(cfg, s') && TasksInv(s')
  }

  lemma KeepLoss(cfg: Config, s: State, s': State, t: TaskId)
    requires Inv(cfg, s)
    requires LossShape(cfg, s, s', t) <==> true
    ensures Inv(cfg, s')
  {
    OverwritesFrame(cfg, s, s');
    RestoredFrame(s, s', t);
  }

  // ---------- Positions under the lock ----------

  lemma HolderFacts(cfg: Config, s: State, t: TaskId)
    requires Inv(cfg, s) && t in s.tasks && Holding(s.tasks[t].pc)
    ensures Settled(cfg, s, t) <==> true
    ensures s.lock == Some(t) && ArchiveInv(s)
  {
  }

  /** A move that changes no stored file, no owner and no snapshot. */
  lemma MovedFrame(s: State, s': State, t: TaskId)
    requires t in s.tasks && !s.tasks[t].pc.Finished? && ArchiveInv(s) && s.lock == s'.lock == Some(t)
    requires t in s'.tasks && s'.tasks == s.tasks[t := s'.tasks[t]] && s'.tasks[t].call == s.tasks[t].call
    requires s'.archive == s.archive && s'.files == s.files && SameOwners(s, s')
    requires forall id :: id in s'.lateDeletes ==> id in s.archive && IsPrunable(s.archive[id])
    requires s'.overwrites == s.overwrites && SnapshotsKept(s, s', t)
    ensures Framed(s, s', t) <==> true
  {
  }

  lemma ResolveSettles(cfg: Config, s: State, t: TaskId, info: BackupInfo)
    requires Settled(cfg, s, t) <==> true
    requires s.tasks[t].pc.Locked? && s.tasks[t].call.Restore? && Known(s, info)
    ensures Settled(cfg, Moved(s, t, Resolved(info)), t) <==> true
  {
  }

  lemma KeepResolve(cfg: Config, s: State, t: TaskId, info: BackupInfo)
    requires Inv(cfg, s) && t in s.tasks && s.tasks[t].pc.Locked? && s.tasks[t].call.Restore? && Known(s, info)
    ensures Inv(cfg, Moved(s, t, Resolved(info)))
  {
    HolderFacts(cfg, s, t);
    MovedFrame(s, Moved(s, t, Resolved(info)), t);
    ResolveSettles(cfg, s, t, info);
    KeepMove(cfg, s, Moved(s, t, Resolved(info)), t);
  }

  /** What a task claims when it has moved on with one more temporary file. */
  lemma OpenedSettles(cfg: Config, s: State, s': State, t: TaskId, name: TempId)
    requires Settled(cfg, s, t) <==> true
    requires s'.lock == s.lock && t in s'.tasks && Holding(s'.tasks[t].pc)
    requires s'.temps == s.temps[name := []] && Held(s'.tasks[t].pc) == Held(s.tasks[t].pc) + {name}
    requires (HolderInv(cfg, s', t) <==> true) && (CreatedInv(s', t) <==> true)
    ensures Settled(cfg, s', t) <==> true
  {
  }

  lemma OpenDownloadSettles(cfg: Config, s: State, t: TaskId, name: TempId)
    requires Settled(cfg, s, t) <==> true
    requires s.tasks[t].pc.Resolved? && s.tasks[t].pc.restored.format.PgCustom?
    ensures Settled(cfg, ApplyOpenTemp(s, t, name), t) <==> true
  {
    OpenedSettles(cfg, s, ApplyOpenTemp(s, t, name), t, name);
  }

  lemma OpenDumpSettles(cfg: Config, s: State, t: TaskId, name: TempId)
    requires Settled(cfg, s, t) <==> true
    requires s.tasks[t].pc.Locked? && s.tasks[t].call.CreateBackup?
    ensures Settled(cfg, ApplyOpenTemp(s, t, name), t) <==> true
  {
    OpenedSettles(cfg, s, ApplyOpenTemp(s, t, name), t, name);
  }

  lemma OpenCopySettles(cfg: Config, s: State, t: TaskId, name: TempId)
    requires Settled(cfg, s, t) <==> true
    requires name !in s.temps && s.tasks[t].pc.Downloaded?
    ensures Settled(cfg, ApplyOpenTemp(s, t, name), t) <==> true
  {
    HasArchiveSame(s, ApplyOpenTemp(s, t, name), s.tasks[t].pc.restored, s.tasks[t].pc.dst);
    OpenedSettles(cfg, s, ApplyOpenTemp(s, t, name), t, name);
  }

  lemma OpenTempSettles(cfg: Config, s: State, t: TaskId, name: TempId)
    requires Settled(cfg, s, t) <==> true
    requires name !in s.temps && WantsTemp(s.tasks[t])
    ensures Settled(cfg, ApplyOpenTemp(s, t, name), t) <==> true
  {
    var pc := s.tasks[t].pc;
    if pc.Resolved? {
      OpenDownloadSettles(cfg, s, t, name);
    } else if pc.Locked? {
      OpenDumpSettles(cfg, s, t, name);
    } else {
      OpenCopySettles(cfg, s, t, name);
    }
  }

  lemma HasArchiveSame(s: State, s': State, restored: BackupInfo, dst: TempId)
    requires HasArchive(s, restored, dst) && s'.archive == s.archive
    requires dst in s'.temps && s'.temps[dst] == s.temps[dst]
    ensures HasArchive(s', restored, dst)
  {
  }

  lemma KeepOpenTemp(cfg: Config, s: State, t: TaskId, name: TempId)
    requires Inv(cfg, s) && t in s.tasks && name !in s.temps && WantsTemp(s.tasks[t])
    ensures Inv(cfg, ApplyOpenTemp(s, t, name))
  {
    HolderFacts(cfg, s, t);
    MovedFrame(s, ApplyOpenTemp(s, t, name), t);
    OpenTempSettles(cfg, s, t, name);
    KeepMove(cfg, s, ApplyOpenTemp(s, t, name), t);
  }

  lemma FinishDownloadSettles(cfg: Config, s: State, t: TaskId)
    requires Settled(cfg, s, t) && ArchiveInv(s) <==> true
    requires s.tasks[t].pc.Downloading? && s.tasks[t].pc.restored.id in s.files
    ensures Settled(cfg, ApplyFinishDownload(s, t), t) <==> true
  {
  }

  lemma KeepFinishDownload(cfg: Config, s: State, t: TaskId)
    requires Inv(cfg, s) && t in s.tasks && s.tasks[t].pc.Downloading? && s.tasks[t].pc.restored.id in s.files
    ensures Inv(cfg, ApplyFinishDownload(s, t))
  {
    HolderFacts(cfg, s, t);
    MovedFrame(s, ApplyFinishDownload(s, t), t);
    FinishDownloadSettles(cfg, s, t);
    KeepMove(cfg, s, ApplyFinishDownload(s, t), t);
  }

  lemma RequestMeta(cfg: Config, kind: BackupKind, now: string)
    ensures DumpMeta(cfg, UploadMetadata(PgDumpRequest(cfg.dbName, kind, now), cfg.folder), kind)
  {
  }

  lemma JobSame(s: State, s': State, t: TaskId, job: Job, tmp: TempId)
    requires t in s.tasks && t in s'.tasks && s'.tasks[t].call == s.tasks[t].call
    requires JobInv(s, t, job, tmp) && s'.archive == s.archive
    requires tmp in s'.temps
    requires forall id :: id in s.temps && id != tmp ==> id in s'.temps && s'.temps[id] == s.temps[id]
    ensures JobInv(s', t, job, tmp)
  {
    if job.PreRestoreJob? {
      HasArchiveSame(s, s', job.restored, job.dst);
    }
  }

  lemma TakeSnapshotSettles(cfg: Config, s: State, t: TaskId)
    requires Settled(cfg, s, t) <==> true
    requires s.tasks[t].pc.Dumping?
    ensures Settled(cfg, ApplyTakeSnapshot(s, t), t) <==> true
  {
    JobSame(s, ApplyTakeSnapshot(s, t), t, s.tasks[t].pc.job, s.tasks[t].pc.tmp);
  }

  lemma KeepTakeSnapshot(cfg: Config, s: State, t: TaskId)
    requires Inv(cfg, s) && t in s.tasks && s.tasks[t].pc.Dumping?
    ensures Inv(cfg, ApplyTakeSnapshot(s, t))
  {
    HolderFacts(cfg, s, t);
    MovedFrame(s, ApplyTakeSnapshot(s, t), t);
    TakeSnapshotSettles(cfg, s, t);
    KeepMove(cfg, s, ApplyTakeSnapshot(s, t), t);
  }

  /** The archive holds the database that the dump has seen. */
  predicate CanFinishDump(cfg: Config, s: State, t: TaskId, archive: Bytes) {
    && t in s.tasks && s.tasks[t].pc.Dumping? && s.tasks[t].pc.seen
    && t in s.snapshots && cfg.load(archive) == Some(s.snapshots[t])
  }

  lemma FinishDumpSettles(cfg: Config, s: State, t: TaskId, archive: Bytes, now: string)
    requires Settled(cfg, s, t) <==> true
    requires CanFinishDump(cfg, s, t, archive)
    ensures Settled(cfg, ApplyFinishDump(cfg, s, t, archive, now), t) <==> true
  {
    var pc := s.tasks[t].pc;
    JobSame(s, ApplyFinishDump(cfg, s, t, archive, now), t, pc.job, pc.tmp);
    FinishDumpMeta(cfg, s, t, archive, now);
  }

  lemma FinishDumpMeta(cfg: Config, s: State, t: TaskId, archive: Bytes, now: string)
    requires CanFinishDump(cfg, s, t, archive)
    ensures var s' := ApplyFinishDump(cfg, s, t, archive, now);
            && s'.tasks[t].pc.Uploading?
            && (HoldsDump(cfg, s', t, Stored(s'.tasks[t].pc.meta, archive)) <==> true)
  {
    RequestMeta(cfg, KindOf(s.tasks[t].call), now);
  }

  lemma KeepFinishDump(cfg: Config, s: State, t: TaskId, archive: Bytes, now: string)
    requires Inv(cfg, s) && CanFinishDump(cfg, s, t, archive)
    ensures Inv(cfg, ApplyFinishDump(cfg, s, t, archive, now))
  {
    HolderFacts(cfg, s, t);
    MovedFrame(s, ApplyFinishDump(cfg, s, t, archive, now), t);
    FinishDumpSettles(cfg, s, t, archive, now);
    KeepMove(cfg, s, ApplyFinishDump(cfg, s, t, archive, now), t);
  }

  // ---------- The upload takes effect ----------

  /** The lock holder's upload has created file `id`. */
  predicate CreationFrame(s: State, s': State, t: TaskId, id: string) {
    && s.lock == Some(t) && s'.lock == Some(t)
    && OnlyMoves(s, s', t) && Extends(s, s') && CopiesKept(s, s')
    && s'.overwrites == s.overwrites && s'.snapshots == s.snapshots
    && id !in s.owner && s'.owner == s.owner[id := t] && s'.lateUploads == s.lateUploads
    && ArchiveInv(s')
  }

  lemma CreationHistory(cfg: Config, s: State, s': State, t: TaskId, id: string)
    requires Inv(cfg, s)
    requires CreationFrame(s, s', t, id) <==> true
    requires !s'.tasks[t].pc.Finished?
    ensures OverwritesInv(cfg, s') && RestoredInv(s') <==> true
  {
    OverwritesFrame(cfg, s, s');
    RestoredFrame(s, s', t);
  }

  lemma KeepCreation(cfg: Config, s: State, s': State, t: TaskId, id: string)
    requires Inv(cfg, s)
    requires CreationFrame(s, s', t, id) <==> true
    requires OwnerInv(cfg, s') <==> true
    requires TasksInv(s') <==> true
    requires Settled(cfg, s', t) <==> true
    ensures Inv(cfg, s')
  {
    CreationHistory(cfg, s, s', t, id);
  }

  predicate CanStore(s: State, t: TaskId, id: string) {
    && t in s.tasks && s.tasks[t].pc.Uploading? && s.tasks[t].pc.created.None? && s.tasks[t].pc.tmp in s.temps
    && id !in s.archive && id !in s.owner
  }

  /** What the created file and the task that created it look like. */
  predicate FileCreated(cfg: Config, s: State, s': State, t: TaskId, id: string) {
    && CanStore(s, t, id)
    && id in s'.archive && HoldsDump(cfg, s', t, s'.archive[id]) && s'.archive[id].meta.createdTime.Some?
    && s'.tasks[t].pc.Uploading? && s'.tasks[t].pc.created.Some?
    && s'.tasks[t].pc == s.tasks[t].pc.(created := s'.tasks[t].pc.created)
    && s'.tasks[t].pc.created.value.id == id && id in s'.files
    && Known(s', s'.tasks[t].pc.created.value)
    && s'.temps == s.temps && s'.db == s.db && s'.touched == s.touched
  }

  lemma StoreUploadFile(cfg: Config, s: State, t: TaskId, id: string, time: int, md5: Option<string>)
    requires ArchiveInv(s) && CanStore(s, t, id) && s.lock == Some(t)
    requires HoldsDump(cfg, s, t, Stored(s.tasks[t].pc.meta, s.temps[s.tasks[t].pc.tmp]))
    ensures CreationFrame(s, ApplyStoreUpload(s, t, id, time, md5), t, id) <==> true
    ensures FileCreated(cfg, s, ApplyStoreUpload(s, t, id, time, md5), t, id) <==> true
  {
    var s', draft := ApplyStoreUpload(s, t, id, time, md5), Stored(s.tasks[t].pc.meta, s.temps[s.tasks[t].pc.tmp]);
    DumpStored(cfg, s, t, draft, id, time, md5);
    NewFileShape(s, s', id, StoredAs(draft, id, time, md5));
    HoldsDumpSame(cfg, s, s', t, StoredAs(draft, id, time, md5));
  }

  lemma StoreUploadOwner(cfg: Config, s: State, s': State, t: TaskId, id: string)
    requires OwnerInv(cfg, s) && TasksInv(s) <==> true
    requires CreationFrame(s, s', t, id) <==> true
    requires FileCreated(cfg, s, s', t, id) <==> true
    ensures OwnerInv(cfg, s') <==> true
  {
    assert CreatedInv(s, t);
    assert s.lateUploads - {t} == s.lateUploads;
    OwnerGrows(cfg, s, s', t, id);
  }

  lemma StoreUploadTasks(cfg: Config, s: State, s': State, t: TaskId, id: string)
    requires TasksInv(s) <==> true
    requires CreationFrame(s, s', t, id) <==> true
    requires FileCreated(cfg, s, s', t, id) <==> true
    ensures TasksInv(s') <==> true
  {
    assert CreatedInv(s, t);
    assert s.lateUploads - {t} == s.lateUploads;
    TasksAfterCreation(s, s', t, id);
  }

  lemma StoreUploadJob(s: State, s': State, t: TaskId, job: Job, tmp: TempId)
    requires t in s.tasks && t in s'.tasks && s'.tasks[t].call == s.tasks[t].call && s'.temps == s.temps
    requires Extends(s, s') && JobInv(s, t, job, tmp)
    ensures JobInv(s', t, job, tmp)
  {
    if job.PreRestoreJob? {
      HasArchiveFrame(s, s', job.restored, job.dst);
    }
  }

  lemma StoreUploadSettles(cfg: Config, s: State, s': State, t: TaskId, id: string)
    requires Settled(cfg, s, t) <==> true
    requires CreationFrame(s, s', t, id) <==> true
    requires FileCreated(cfg, s, s', t, id) <==> true
    ensures Settled(cfg, s', t) <==> true
  {
    StoreUploadJob(s, s', t, s.tasks[t].pc.job, s.tasks[t].pc.tmp);
  }

  lemma KeepStoreUpload(cfg: Config, s: State, t: TaskId, id: string, time: int, md5: Option<string>)
    requires Inv(cfg, s) && CanStore(s, t, id)
    ensures Inv(cfg, ApplyStoreUpload(s, t, id, time, md5))
  {
    var s' := ApplyStoreUpload(s, t, id, time, md5);
    HolderFacts(cfg, s, t);
    StoreUploadFile(cfg, s, t, id, time, md5);
    StoreUploadOwner(cfg, s, s', t, id);
    StoreUploadTasks(cfg, s, s', t, id);
    StoreUploadSettles(cfg, s, s', t, id);
    KeepCreation(cfg, s, s', t, id);
  }

  // ---------- After the upload ----------

  predicate Uploaded(s: State, t: TaskId) {
    t in s.tasks && s.tasks[t].pc.Uploading? && s.tasks[t].pc.created.Some?
  }

  lemma ToRestoringSettles(cfg: Config, s: State, t: TaskId)
    requires Settled(cfg, s, t) <==> true
    requires Uploaded(s, t) && s.tasks[t].pc.job.PreRestoreJob?
    ensures Settled(cfg, ApplyFinishUpload(cfg, s, t), t) <==> true
  {
    var job := s.tasks[t].pc.job;
    HasArchiveFrame(s, ApplyFinishUpload(cfg, s, t), job.restored, job.dst);
  }

  lemma KeepToRestoring(cfg: Config, s: State, t: TaskId)
    requires Inv(cfg, s) && t in s.tasks && Uploaded(s, t) && s.tasks[t].pc.job.PreRestoreJob?
    ensures Inv(cfg, ApplyFinishUpload(cfg, s, t))
  {
    HolderFacts(cfg, s, t);
    MovedFrame(s, ApplyFinishUpload(cfg, s, t), t);
    ToRestoringSettles(cfg, s, t);
    KeepMove(cfg, s, ApplyFinishUpload(cfg, s, t), t);
  }

  lemma ToListingSettles(cfg: Config, s: State, t: TaskId)
    requires Settled(cfg, s, t) <==> true
    requires Uploaded(s, t) && s.tasks[t].pc.job.RegularJob? && cfg.retention.Some?
    ensures Settled(cfg, ApplyFinishUpload(cfg, s, t), t) <==> true
  {
  }

  lemma KeepToListing(cfg: Config, s: State, t: TaskId)
    requires Inv(cfg, s) && t in s.tasks && Uploaded(s, t) && s.tasks[t].pc.job.RegularJob? && cfg.retention.Some?
    ensures Inv(cfg, ApplyFinishUpload(cfg, s, t))
  {
    HolderFacts(cfg, s, t);
    MovedFrame(s, ApplyFinishUpload(cfg, s, t), t);
    ToListingSettles(cfg, s, t);
    KeepMove(cfg, s, ApplyFinishUpload(cfg, s, t), t);
  }

  lemma KeepFinishUpload(cfg: Config, s: State, t: TaskId)
    requires Inv(cfg, s) && Uploaded(s, t)
    ensures Inv(cfg, ApplyFinishUpload(cfg, s, t))
  {
    if s.tasks[t].pc.job.PreRestoreJob? {
      KeepToRestoring(cfg, s, t);
    } else if cfg.retention.Some? {
      KeepToListing(cfg, s, t);
    } else {
      HolderFacts(cfg, s, t);
      KeepEndHolder(cfg, s, t, BackedUp(s.tasks[t].pc.created.value));
    }
  }

  // ---------- Pruning ----------

  predicate AllKnown(s: State, bs: seq<BackupInfo>) {
    forall b :: b in bs ==> Known(s, b)
  }

  lemma MoreListed(cfg: Config, s: State, listed: seq<BackupInfo>, items: seq<BackupInfo>)
    requires ArchiveInv(s) && AllKnown(s, listed)
    requires forall i :: 0 <= i < |items| ==> Shown(cfg, s.files, items[i])
    ensures AllKnown(s, listed + items)
  {
    forall b | b in items ensures Known(s, b) {
      var i :| 0 <= i < |items| && items[i] == b;
      assert Shown(cfg, s.files, items[i]);
    }
  }

  predicate CanList(cfg: Config, s: State, t: TaskId, items: seq<BackupInfo>, more: bool) {
    && t in s.tasks && s.tasks[t].pc.Listing? && cfg.retention.Some? && AllKnown(s, s.tasks[t].pc.listed + items)
    && (more ==> s.tasks[t].pc.pages + 1 < MAX_RETENTION_PAGES)
  }

  lemma ListPageSettles(cfg: Config, s: State, t: TaskId, items: seq<BackupInfo>, more: bool)
    requires Settled(cfg, s, t) <==> true
    requires CanList(cfg, s, t, items, more)
    ensures Settled(cfg, ApplyListPage(cfg, s, t, items, more), t) <==> true
  {
    var s', listed := ApplyListPage(cfg, s, t, items, more), s.tasks[t].pc.listed + items;
    assert AllKnown(s', listed);
    if !more {
      CandidatesAreOldest(listed, cfg.retention.value);
    }
  }

  lemma KeepListMore(cfg: Config, s: State, t: TaskId, items: seq<BackupInfo>, more: bool)
    requires Inv(cfg, s) && t in s.tasks && CanList(cfg, s, t, items, more)
    ensures Inv(cfg, ApplyListPage(cfg, s, t, items, more))
  {
    HolderFacts(cfg, s, t);
    MovedFrame(s, ApplyListPage(cfg, s, t, items, more), t);
    ListPageSettles(cfg, s, t, items, more);
    KeepMove(cfg, s, ApplyListPage(cfg, s, t, items, more), t);
  }

  lemma KeepListPage(cfg: Config, s: State, t: TaskId, items: seq<BackupInfo>, more: bool)
    requires Inv(cfg, s) && t in s.tasks && s.tasks[t].pc.Listing? && cfg.retention.Some?
    requires forall i :: 0 <= i < |items| ==> Shown(cfg, s.files, items[i])
    ensures Inv(cfg, ApplyListPage(cfg, s, t, items, more))
  {
    HolderFacts(cfg, s, t);
    if more && s.tasks[t].pc.pages + 1 >= MAX_RETENTION_PAGES {
      KeepEndHolder(cfg, s, t, BackedUp(s.tasks[t].pc.info));
    } else {
      MoreListed(cfg, s, s.tasks[t].pc.listed, items);
      KeepListMore(cfg, s, t, items, more);
    }
  }

  lemma PendingIsNoCopy(s: State, todo: seq<BackupInfo>)
    requires todo != [] && forall b :: b in todo ==> Known(s, b) && Prunable(b)
    ensures todo[0].id in s.archive && IsPrunable(s.archive[todo[0].id])
  {
    assert todo[0] in todo;
    PrunableIsNoCopy(s, todo[0]);
  }

  lemma DeleteMoreSettles(cfg: Config, s: State, t: TaskId)
    requires Settled(cfg, s, t) <==> true
    requires s.tasks[t].pc.Deleting? && s.tasks[t].pc.todo != []
    ensures Settled(cfg, ApplyNextDelete(s, t), t) <==> true
  {
    TodoShrinks(s, ApplyNextDelete(s, t), s.tasks[t].pc.todo);
  }

  lemma TodoShrinks(s: State, s': State, todo: seq<BackupInfo>)
    requires todo != [] && s'.archive == s.archive && forall b :: b in todo ==> Known(s, b) && Prunable(b)
    ensures forall b :: b in todo[1..] ==> Known(s', b) && Prunable(b)
  {
    assert forall b :: b in todo[1..] ==> b in todo;
  }

  lemma KeepDeleteMore(cfg: Config, s: State, t: TaskId)
    requires Inv(cfg, s) && t in s.tasks && s.tasks[t].pc.Deleting? && s.tasks[t].pc.todo != []
    ensures Inv(cfg, ApplyNextDelete(s, t))
  {
    HolderFacts(cfg, s, t);
    PendingIsNoCopy(s, s.tasks[t].pc.todo);
    MovedFrame(s, ApplyNextDelete(s, t), t);
    DeleteMoreSettles(cfg, s, t);
    KeepMove(cfg, s, ApplyNextDelete(s, t), t);
  }

  lemma KeepNextDelete(cfg: Config, s: State, t: TaskId)
    requires Inv(cfg, s) && t in s.tasks && s.tasks[t].pc.Deleting?
    ensures Inv(cfg, ApplyNextDelete(s, t))
  {
    if s.tasks[t].pc.todo == [] {
      HolderFacts(cfg, s, t);
      KeepEndHolder(cfg, s, t, BackedUp(s.tasks[t].pc.info));
    } else {
      KeepDeleteMore(cfg, s, t);
    }
  }

  // ---------- The restore takes effect ----------

  predicate CanCommit(cfg: Config, s: State, t: TaskId) {
    && t in s.tasks && s.tasks[t].pc.Restoring? && !s.tasks[t].pc.committed
    && s.tasks[t].pc.dst in s.temps && cfg.load(s.temps[s.tasks[t].pc.dst]).Some?
  }

  predicate CommitShape(cfg: Config, s: State, s': State, t: TaskId) {
    && s.lock == Some(t) && s'.lock == Some(t)
    && OnlyMoves(s, s', t) && Extends(s, s') && SameOwners(s, s') && CopiesKept(s, s')
    && s'.snapshots == s.snapshots && |s'.overwrites| == |s.overwrites| + 1 && s.overwrites <= s'.overwrites
    && OverwriteInv(cfg, s', s'.overwrites[|s.overwrites|])
    && ArchiveInv(s') && Settled(cfg, s', t)
  }

  lemma OverwritesGrow(cfg: Config, s: State, s': State)
    requires ArchiveInv(s) && OwnerInv(cfg, s) && OverwritesInv(cfg, s)
    requires Extends(s, s') && CopiesKept(s, s') && SameOwners(s, s') && s'.snapshots == s.snapshots
    requires |s'.overwrites| == |s.overwrites| + 1 && s.overwrites <= s'.overwrites
    requires OverwriteInv(cfg, s', s'.overwrites[|s.overwrites|])
    ensures OverwritesInv(cfg, s')
  {
    var before := s'.(overwrites := s.overwrites);
    OverwritesFrame(cfg, s, before);
    forall i | 0 <= i < |s.overwrites| ensures OverwriteInv(cfg, s', s'.overwrites[i]) {
      assert OverwriteInv(cfg, before, before.overwrites[i]);
    }
  }

  lemma KeepOverwrite(cfg: Config, s: State, s': State, t: TaskId)
    requires Inv(cfg, s)
    requires CommitShape(cfg, s, s', t) <==> true
    ensures Inv(cfg, s')
  {
    CommitOwners(cfg, s, s', t);
    CommitHistory(cfg, s, s', t);
  }

  lemma CommitOwners(cfg: Config, s: State, s': State, t: TaskId)
    requires OwnerInv(cfg, s) && TasksInv(s) <==> true
    requires CommitShape(cfg, s, s', t) <==> true
    ensures OwnerInv(cfg, s') && TasksInv(s') <==> true
  {
    OwnerFrame(cfg, s, s');
    TasksFrame(s, s', t);
  }

  lemma CommitHistory(cfg: Config, s: State, s': State, t: TaskId)
    requires Inv(cfg, s)
    requires CommitShape(cfg, s, s', t) <==> true
    ensures OverwritesInv(cfg, s') && RestoredInv(s') <==> true
  {
    OverwritesGrow(cfg, s, s');
    RestoredFrame(s, s', t);
  }

  lemma CommitHolder(cfg: Config, s: State, t: TaskId)
    requires CanCommit(cfg, s, t) && HolderInv(cfg, s, t)
    ensures HolderInv(cfg, ApplyCommit(cfg, s, t), t)
  {
    var s', pc := ApplyCommit(cfg, s, t), s.tasks[t].pc;
    HasArchiveFrame(s, s', pc.restored, pc.dst);
    assert s'.overwrites[|s.overwrites|].task == t;
    assert Recorded(s', t, pc.restored.id, pc.preRestore.id);
  }

  lemma CommitRecord(cfg: Config, s: State, t: TaskId)
    requires CanCommit(cfg, s, t) && HolderInv(cfg, s, t) && CreatedInv(s, t)
    ensures var s' := ApplyCommit(cfg, s, t);
            && |s'.overwrites| == |s.overwrites| + 1 && s.overwrites <= s'.overwrites
            && OverwriteInv(cfg, s', s'.overwrites[|s.overwrites|])
            && CreatedInv(s', t)
  {
  }

  lemma CommitFacts(cfg: Config, s: State, t: TaskId)
    requires Settled(cfg, s, t) && ArchiveInv(s) <==> true
    requires CanCommit(cfg, s, t)
    ensures CommitShape(cfg, s, ApplyCommit(cfg, s, t), t) <==> true
  {
    MovedFrame(s, ApplyCommit(cfg, s, t).(overwrites := s.overwrites), t);
    CommitSettles(cfg, s, t);
    CommitRecord(cfg, s, t);
  }

  lemma CommitSettles(cfg: Config, s: State, t: TaskId)
    requires Settled(cfg, s, t) <==> true
    requires CanCommit(cfg, s, t)
    ensures Settled(cfg, ApplyCommit(cfg, s, t), t) <==> true
  {
    CommitHolder(cfg, s, t);
  }

  lemma KeepCommit(cfg: Config, s: State, t: TaskId)
    requires Inv(cfg, s) && CanCommit(cfg, s, t)
    ensures Inv(cfg, ApplyCommit(cfg, s, t))
  {
    HolderFacts(cfg, s, t);
    CommitFacts(cfg, s, t);
    KeepOverwrite(cfg, s, ApplyCommit(cfg, s, t), t);
  }

  // ---------- All steps ----------

  /** A call ends without success, wherever it stands. */
  lemma KeepAbort(cfg: Config, s: State, t: TaskId, outcome: Outcome)
    requires Inv(cfg, s) && t in s.tasks && !s.tasks[t].pc.Finished? && (outcome.Failed? || outcome.Cancelled?)
    ensures Inv(cfg, Ended(s, t, outcome))
  {
    if s.tasks[t].pc.Begun? {
      KeepEndBegun(cfg, s, t, outcome);
    } else {
      HolderFacts(cfg, s, t);
      if s.tasks[t].pc.Uploading? && s.tasks[t].pc.created.None? {
        KeepEndUploading(cfg, s, t, outcome);
      } else {
        KeepEndHolder(cfg, s, t, outcome);
      }
    }
  }

  lemma KeepFinishRestore(cfg: Config, s: State, t: TaskId)
    requires Inv(cfg, s) && t in s.tasks && s.tasks[t].pc.Restoring? && s.tasks[t].pc.committed
    ensures Inv(cfg, Ended(s, t, Restored(s.tasks[t].pc.restored, s.tasks[t].pc.preRestore)))
  {
    HolderFacts(cfg, s, t);
    KeepEndHolder(cfg, s, t, Restored(s.tasks[t].pc.restored, s.tasks[t].pc.preRestore));
  }

  lemma KeepListFails(cfg: Config, s: State, t: TaskId)
    requires Inv(cfg, s) && t in s.tasks && s.tasks[t].pc.Listing?
    ensures Inv(cfg, Ended(s, t, BackedUp(s.tasks[t].pc.info)))
  {
    HolderFacts(cfg, s, t);
    KeepEndHolder(cfg, s, t, BackedUp(s.tasks[t].pc.info));
  }

  lemma ResolvedIsKnown(cfg: Config, s: State, target: Target, info: BackupInfo)
    requires Inv(cfg, s) && Fits(cfg, s.files, target, info)
    ensures Known(s, info)
  {
  }

  lemma UnstoredIsUnowned(cfg: Config, s: State, id: string)
    requires Inv(cfg, s) && id !in s.archive
    ensures id !in s.owner
  {
  }

  lemma KeepLateRemove(cfg: Config, s: State, id: string)
    requires Inv(cfg, s) && id in s.lateDeletes
    ensures Inv(cfg, s.(files := s.files - {id}, lateDeletes := s.lateDeletes - {id}))
  {
    KeepRemoval(cfg, s, s.(files := s.files - {id}, lateDeletes := s.lateDeletes - {id}), id);
  }

  lemma KeepRemoveFile(cfg: Config, s: State, id: string)
    requires Inv(cfg, s) && id in s.files && !IsPreRestoreCopy(s.files[id])
    ensures Inv(cfg, s.(files := s.files - {id}))
  {
    KeepRemoval(cfg, s, s.(files := s.files - {id}), id);
  }

  lemma KeepAct(cfg: Config, s: State, t: TaskId, a: Action)
    requires Inv(cfg, s) && CanAct(cfg, s, t, a)
    ensures Inv(cfg, AfterAct(cfg, s, t, a))
  {
    match a
    case Refuse => KeepAbort(cfg, s, t, Failed(FailedPrecondition("confirm_db_name")));
    case FindBusy => KeepAbort(cfg, s, t, Failed(Busy("another backup or restore is in progress")));
    case Acquire => KeepAcquire(cfg, s, t);
    case Resolve(info) =>
      ResolvedIsKnown(cfg, s, s.tasks[t].call.target, info);
      KeepResolve(cfg, s, t, info);
    case RejectFormat => KeepAbort(cfg, s, t, Failed(FailedPrecondition("format")));
    case OpenTemp(name) => KeepOpenTemp(cfg, s, t, name);
    case FinishDownload => KeepFinishDownload(cfg, s, t);
    case TakeSnapshot => KeepTakeSnapshot(cfg, s, t);
    case FinishDump(archive, now) => KeepFinishDump(cfg, s, t, archive, now);
    case StoreUpload(id, time, md5) =>
      UnstoredIsUnowned(cfg, s, id);
      KeepStoreUpload(cfg, s, t, id, time, md5);
    case FinishUpload => KeepFinishUpload(cfg, s, t);
    case ListPage(items, more) => KeepListPage(cfg, s, t, items, more);
    case ListFails => KeepListFails(cfg, s, t);
    case RemoveRemote => KeepRemoveRemote(cfg, s, t);
    case NextDelete => KeepNextDelete(cfg, s, t);
    case Commit => KeepCommit(cfg, s, t);
    case FinishRestore => KeepFinishRestore(cfg, s, t);
    case Fail(error) => KeepAbort(cfg, s, t, Failed(error));
    case Cancel => KeepAbort(cfg, s, t, Cancelled);
  }

  lemma KeepChange(cfg: Config, s: State, c: Change)
    requires Inv(cfg, s) && CanChange(s, c)
    ensures Inv(cfg, AfterChange(s, c))
  {
    match c
    case Spawn(t, call) => KeepSpawn(cfg, s, t, call);
    case LateStore(t, id, time, md5) => KeepLateStore(cfg, s, t, id, time, md5);
    case LateRemove(id) => KeepLateRemove(cfg, s, id);
    case WriteDb(db) => KeepWriteDb(cfg, s, db);
    case AddFile(id, file) => KeepAddFile(cfg, s, id, file);
    case RemoveFile(id) => KeepRemoveFile(cfg, s, id);
  }

  /** Every step keeps the invariant. */
  lemma InvStep(cfg: Config, s: State, e: Event)
    requires Inv(cfg, s) && Enabled(cfg, s, e)
    ensures Inv(cfg, Apply(cfg, s, e))
  {
    match e
    case Act(t, a) => KeepAct(cfg, s, t, a);
    case Around(c) => KeepChange(cfg, s, c);
  }
}
