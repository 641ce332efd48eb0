/** What holds in every run of the protocol, whatever the interleaving, the failures, the
    cancellations and the late effects. */
module ProtocolSafety {
  import opened Core
  import opened Mapping
  import opened Retention
  import opened Protocol
  import opened ProtocolInvariant
  import opened ProtocolSteps

  lemma InitInv(cfg: Config, db: Db, files: map<string, Stored>)
    requires ProperIds(files)
    ensures Inv(cfg, Init(db, files))
  {
  }

  lemma {:induction false} InvRun(cfg: Config, s: State, events: seq<Event>, s': State)
    requires Inv(cfg, s) && Run(cfg, s, events, s')
    ensures Inv(cfg, s')
    decreases |events|
  {
    if events != [] {
      InvStep(cfg, s, events[0]);
      InvRun(cfg, Apply(cfg, s, events[0]), events[1..], s');
    }
  }

  lemma ReachableInv(cfg: Config, db: Db, files: map<string, Stored>, events: seq<Event>, s: State)
    requires Reachable(cfg, db, files, events, s)
    ensures Inv(cfg, s)
  {
    InitInv(cfg, db, files);
    InvRun(cfg, Init(db, files), events, s);
  }

  // ---------- Overwritten databases ----------

  /** The stored file `id` is a pg_dump pre-restore copy in the folder that `pg_restore` turns into `db`. */
  predicate KeepsCopyOf(cfg: Config, s: State, id: string, db: Db) {
    && id in s.files
    && IsPreRestoreCopy(s.files[id]) && IsInFolder(s.files[id].meta, cfg.folder)
    && ToBackupInfo(s.files[id].meta).value.format == PgCustom
    && cfg.load(s.files[id].content) == Some(db)
  }

  /** The copy belonging to an overwriting is still stored and keeps exactly what the dump saw. */
  lemma CopyKeepsSnapshot(cfg: Config, s: State, i: nat)
    requires Inv(cfg, s) && i < |s.overwrites|
    ensures var o := s.overwrites[i];
            o.task in s.snapshots && forall db :: KeepsCopyOf(cfg, s, o.copy, db) <==> db == s.snapshots[o.task]
  {
    var o := s.overwrites[i];
    assert OverwriteInv(cfg, s, o);
    assert HoldsDump(cfg, s, o.task, s.archive[o.copy]);
    DumpMetaMaps(cfg, s.archive[o.copy].meta, PreRestore);
  }

  // ---------- What one step can change ----------

  predicate EndedBusy(s: State, t: TaskId) {
    t in s.tasks && s.tasks[t].pc.Finished? && s.tasks[t].pc.outcome.Failed? && s.tasks[t].pc.outcome.error.Busy?
  }

  /** Task `t` got past the lock, or ended for another reason than a busy lock. */
  predicate PastLock(s: State, t: TaskId) {
    t in s.tasks && !s.tasks[t].pc.Begun? && !EndedBusy(s, t)
  }

  /** Everything ever stored stays on record. */
  predicate RecordGrows(s: State, s': State) {
    forall id :: id in s.archive ==> id in s'.archive && s'.archive[id] == s.archive[id]
  }

  /** The actions that neither look at the database, nor overwrite it, nor remove a file. */
  predicate Plain(a: Action) {
    !a.TakeSnapshot? && !a.Commit? && !a.RemoveRemote?
  }

  /** The database and its history, the stored files and every other task are left alone; a task
      past the lock stays so. */
  predicate Leaves(s: State, s': State, t: TaskId) {
    && s'.db == s.db && s'.overwrites == s.overwrites && s'.snapshots == s.snapshots && s'.touched == s.touched
    && (forall id :: id in s.files ==> id in s'.files) && RecordGrows(s, s')
    && t in s.tasks && t in s'.tasks && s'.tasks[t].call == s.tasks[t].call
    && s'.tasks.Keys == s.tasks.Keys && (forall u :: u in s.tasks && u != t ==> s'.tasks[u] == s.tasks[u])
    && (PastLock(s, t) ==> PastLock(s', t))
  }

  lemma EndedLeaves(s: State, t: TaskId, outcome: Outcome)
    requires t in s.tasks && (outcome.Failed? && outcome.error.Busy? ==> s.tasks[t].pc.Begun?)
    ensures Leaves(s, Ended(s, t, outcome), t) <==> true
  {
  }

  lemma MovedLeaves(s: State, s': State, t: TaskId)
    requires t in s.tasks && t in s'.tasks && s'.tasks == s.tasks[t := s'.tasks[t]] && Holding(s'.tasks[t].pc)
    requires s'.tasks[t].call == s.tasks[t].call && RecordGrows(s, s')
    requires s'.db == s.db && s'.overwrites == s.overwrites && s.files.Keys <= s'.files.Keys
    requires s'.snapshots == s.snapshots && s'.touched == s.touched
    ensures Leaves(s, s', t) <==> true
  {
  }

  lemma FinishUploadLeaves(cfg: Config, s: State, t: TaskId)
    requires Uploaded(s, t)
    ensures Leaves(s, ApplyFinishUpload(cfg, s, t), t) <==> true
  {
    if s.tasks[t].pc.job.PreRestoreJob? {
      MovedLeaves(s, ApplyFinishUpload(cfg, s, t), t);
    } else if cfg.retention.None? {
      EndedLeaves(s, t, BackedUp(s.tasks[t].pc.created.value));
    } else {
      RegularUploadLeaves(cfg, s, t);
    }
  }

  lemma RegularUploadLeaves(cfg: Config, s: State, t: TaskId)
    requires Uploaded(s, t) && s.tasks[t].pc.job.RegularJob? && cfg.retention.Some?
    ensures Leaves(s, ApplyFinishUpload(cfg, s, t), t) <==> true
  {
    MovedLeaves(s, ApplyFinishUpload(cfg, s, t), t);
  }

  lemma ListPageLeaves(cfg: Config, s: State, t: TaskId, items: seq<BackupInfo>, more: bool)
    requires t in s.tasks && s.tasks[t].pc.Listing? && cfg.retention.Some?
    ensures Leaves(s, ApplyListPage(cfg, s, t, items, more), t) <==> true
  {
    if more && s.tasks[t].pc.pages + 1 >= MAX_RETENTION_PAGES {
      EndedLeaves(s, t, BackedUp(s.tasks[t].pc.info));
    } else {
      MovedLeaves(s, ApplyListPage(cfg, s, t, items, more), t);
    }
  }

  lemma NextDeleteLeaves(s: State, t: TaskId)
    requires t in s.tasks && s.tasks[t].pc.Deleting?
    ensures Leaves(s, ApplyNextDelete(s, t), t) <==> true
  {
    if s.tasks[t].pc.todo == [] {
      EndedLeaves(s, t, BackedUp(s.tasks[t].pc.info));
    } else {
      MovedLeaves(s, ApplyNextDelete(s, t), t);
    }
  }

  lemma ActionLeaves(cfg: Config, s: State, t: TaskId, a: Action)
    requires CanAct(cfg, s, t, a) && Plain(a)
    ensures Leaves(s, AfterAct(cfg, s, t, a), t) <==> true
  {
    match a
    case Refuse => EndedLeaves(s, t, Failed(FailedPrecondition("confirm_db_name")));
    case FindBusy => EndedLeaves(s, t, Failed(Busy("another backup or restore is in progress")));
    case Acquire => MovedLeaves(s, AfterAct(cfg, s, t, a), t);
    case Resolve(info) => MovedLeaves(s, AfterAct(cfg, s, t, a), t);
    case RejectFormat => EndedLeaves(s, t, Failed(FailedPrecondition("format")));
    case OpenTemp(name) => MovedLeaves(s, ApplyOpenTemp(s, t, name), t);
    case FinishDownload => MovedLeaves(s, ApplyFinishDownload(s, t), t);
    case FinishDump(archive, now) => MovedLeaves(s, ApplyFinishDump(cfg, s, t, archive, now), t);
    case StoreUpload(id, time, md5) => MovedLeaves(s, ApplyStoreUpload(s, t, id, time, md5), t);
    case FinishUpload => FinishUploadLeaves(cfg, s, t);
    case ListPage(items, more) => ListPageLeaves(cfg, s, t, items, more);
    case ListFails => EndedLeaves(s, t, BackedUp(PcOf(s, t).info));
    case NextDelete => NextDeleteLeaves(s, t);
    case FinishRestore => EndedLeaves(s, t, Restored(PcOf(s, t).restored, PcOf(s, t).preRestore));
    case Fail(error) => EndedLeaves(s, t, Failed(error));
    case Cancel => EndedLeaves(s, t, Cancelled);
    case _ =>
  }

  /** The event is not a step of `t`. */
  predicate OfOthers(e: Event, t: TaskId) {
    e.Act? ==> e.t != t
  }

  predicate SameTask(s: State, s': State, t: TaskId) {
    t in s.tasks && t in s'.tasks && s'.tasks[t] == s.tasks[t]
  }

  lemma ActionKeepsTask(cfg: Config, s: State, u: TaskId, a: Action, t: TaskId)
    requires CanAct(cfg, s, u, a) && u != t && t in s.tasks
    ensures SameTask(s, AfterAct(cfg, s, u, a), t) <==> true
  {
    if Plain(a) {
      ActionLeaves(cfg, s, u, a);
    }
  }

  lemma ChangeKeepsTask(s: State, c: Change, t: TaskId)
    requires CanChange(s, c) && t in s.tasks
    ensures SameTask(s, AfterChange(s, c), t) <==> true
  {
  }

  /** Other tasks and programs do not move task `t`. */
  lemma OthersKeepTask(cfg: Config, s: State, e: Event, t: TaskId)
    requires (Enabled(cfg, s, e) <==> true) && OfOthers(e, t) && t in s.tasks
    ensures SameTask(s, Apply(cfg, s, e), t) <==> true
  {
    match e
    case Act(u, a) => ActionKeepsTask(cfg, s, u, a, t);
    case Around(c) => ChangeKeepsTask(s, c, t);
  }

  /** How a step may change the database: not at all, by another program, or by a commit that records
      the old and the new database. */
  predicate DbStep(e: Event, s: State, s': State) {
    if e.Act? && e.action.Commit? then
      && |s'.overwrites| == |s.overwrites| + 1 && s.overwrites == s'.overwrites[..|s.overwrites|]
      && s'.overwrites[|s.overwrites|].lost == s.db && s'.overwrites[|s.overwrites|].gained == s'.db
    else
      s'.overwrites == s.overwrites && (s'.db == s.db || (e.Around? && e.change.WriteDb? && s'.touched))
  }

  lemma ActionDbStep(cfg: Config, s: State, t: TaskId, a: Action)
    requires CanAct(cfg, s, t, a)
    ensures DbStep(Act(t, a), s, AfterAct(cfg, s, t, a)) <==> true
  {
    if Plain(a) {
      ActionLeaves(cfg, s, t, a);
    }
  }

  lemma ChangeDbStep(s: State, c: Change)
    requires CanChange(s, c)
    ensures DbStep(Around(c), s, AfterChange(s, c)) <==> true
  {
  }

  /** The list of overwritten databases is complete: a step changes the database only when another
      program writes it or when a restore commits, and a commit is recorded with both databases. */
  lemma ChangesAreRecorded(cfg: Config, s: State, e: Event)
    requires Enabled(cfg, s, e)
    ensures DbStep(e, s, Apply(cfg, s, e)) <==> true
  {
    match e
    case Act(t, a) => ActionDbStep(cfg, s, t, a);
    case Around(c) => ChangeDbStep(s, c);
  }

  // ---------- Exclusion and temporary files ----------

  /** At most one task is between taking and releasing the lock, the lock is free exactly when there
      is none, and the temporary files are exactly those of that task: none is left behind by a call
      that succeeded, failed or was cancelled. */
  lemma Exclusion(cfg: Config, db: Db, files: map<string, Stored>, events: seq<Event>, s: State)
    requires Reachable(cfg, db, files, events, s)
    ensures forall t, u :: t in s.tasks && u in s.tasks && Holding(s.tasks[t].pc) && Holding(s.tasks[u].pc) ==> t == u
    ensures s.lock == None <==> forall t :: t in s.tasks ==> !Holding(s.tasks[t].pc)
    ensures forall t :: t in s.tasks && Holding(s.tasks[t].pc) ==> s.temps.Keys == Held(s.tasks[t].pc)
    ensures s.lock == None ==> s.temps == map[]
  {
    ReachableInv(cfg, db, files, events, s);
    if s.lock == None {
      assert s.temps.Keys == {};
    }
  }

  /** Everything outside the tasks themselves that a call could change. */
  predicate SameWorld(s: State, s': State) {
    && s'.db == s.db && s'.files == s.files && s'.temps == s.temps && s'.lock == s.lock
    && s'.lateUploads == s.lateUploads && s'.lateDeletes == s.lateDeletes
    && s'.archive == s.archive && s'.overwrites == s.overwrites
  }

  /** Every step of task `t` along the run leaves the world alone. */
  predicate QuietRun(cfg: Config, s: State, events: seq<Event>, t: TaskId)
    decreases |events|
  {
    events != [] && Enabled(cfg, s, events[0]) ==>
      && (events[0].Act? && events[0].t == t ==> SameWorld(s, Apply(cfg, s, events[0])))
      && QuietRun(cfg, Apply(cfg, s, events[0]), events[1..], t)
  }

  lemma PastLockAction(cfg: Config, s: State, u: TaskId, a: Action, t: TaskId)
    requires CanAct(cfg, s, u, a) && PastLock(s, t)
    ensures PastLock(AfterAct(cfg, s, u, a), t) <==> true
  {
    if Plain(a) {
      ActionLeaves(cfg, s, u, a);
    }
  }

  lemma PastLockChange(s: State, c: Change, t: TaskId)
    requires CanChange(s, c) && PastLock(s, t)
    ensures PastLock(AfterChange(s, c), t) <==> true
  {
  }

  lemma PastLockStep(cfg: Config, s: State, e: Event, t: TaskId)
    requires Enabled(cfg, s, e) && PastLock(s, t)
    ensures PastLock(Apply(cfg, s, e), t) <==> true
  {
    match e
    case Act(u, a) => PastLockAction(cfg, s, u, a, t);
    case Around(c) => PastLockChange(s, c, t);
  }

  lemma {:induction false} PastLockRun(cfg: Config, s: State, events: seq<Event>, s': State, t: TaskId)
    requires Run(cfg, s, events, s') && PastLock(s, t)
    ensures PastLock(s', t)
    decreases |events|
  {
    if events != [] {
      PastLockStep(cfg, s, events[0], t);
      PastLockRun(cfg, Apply(cfg, s, events[0]), events[1..], s', t);
    }
  }

  /** Before it has the lock, a task either changes nothing or is past the lock for good. */
  lemma WaitingStep(cfg: Config, s: State, t: TaskId, a: Action)
    requires LockInv(s) && CanAct(cfg, s, t, a) && !PastLock(s, t)
    ensures PastLock(AfterAct(cfg, s, t, a), t) || SameWorld(s, AfterAct(cfg, s, t, a))
  {
    if a.FindBusy? {
      EndedBegun(s, t, Failed(Busy("another backup or restore is in progress")));
    }
  }

  lemma {:induction false} BusyIsQuiet(cfg: Config, s: State, events: seq<Event>, s': State, t: TaskId)
    requires Inv(cfg, s) && Run(cfg, s, events, s') && EndedBusy(s', t) && !PastLock(s, t)
    ensures QuietRun(cfg, s, events, t)
    decreases |events|
  {
    if events != [] {
      var e, next := events[0], Apply(cfg, s, events[0]);
      InvStep(cfg, s, e);
      if PastLock(next, t) {
        PastLockRun(cfg, next, events[1..], s', t);
        assert false;
      }
      BusyIsQuiet(cfg, next, events[1..], s', t);
      if e.Act? && e.t == t {
        WaitingStep(cfg, s, t, e.action);
      }
    }
  }

  /** A caller that was told `Busy` has changed neither the database nor the storage nor any
      temporary file nor the lock, in every run. */
  lemma BusyChangesNothing(cfg: Config, db: Db, files: map<string, Stored>, events: seq<Event>, s: State, t: TaskId)
    requires Reachable(cfg, db, files, events, s) && EndedBusy(s, t)
    ensures QuietRun(cfg, Init(db, files), events, t)
  {
    InitInv(cfg, db, files);
    BusyIsQuiet(cfg, Init(db, files), events, s, t);
  }

  // ---------- Uploads and deletions ----------

  /** `info` describes a file task `t` has created. */
  predicate Reports(s: State, t: TaskId, info: BackupInfo) {
    info.id in s.owner && s.owner[info.id] == t && info.id in s.archive && MapsTo(s.archive[info.id], info)
  }

  lemma OwnedKind(cfg: Config, s: State, t: TaskId, info: BackupInfo)
    requires ArchiveInv(s) && OwnerInv(cfg, s) && OwnedBy(s, t, info)
    ensures t in s.tasks && info.kind == KindOf(s.tasks[t].call) && Reports(s, t, info)
  {
    assert HoldsDump(cfg, s, t, s.archive[info.id]);
    DumpMetaMaps(cfg, s.archive[info.id].meta, KindOf(s.tasks[t].call));
  }

  /** Upload is at-most-once: no call has ever created two files, even when a cut-off request arrives
      late, and a call whose request may still arrive has created none. */
  lemma UploadAtMostOnce(cfg: Config, db: Db, files: map<string, Stored>, events: seq<Event>, s: State)
    requires Reachable(cfg, db, files, events, s)
    ensures forall i, j :: i in s.owner && j in s.owner && s.owner[i] == s.owner[j] ==> i == j
    ensures forall i :: i in s.owner ==> s.owner[i] in s.tasks && s.owner[i] !in s.lateUploads
  {
    ReachableInv(cfg, db, files, events, s);
    forall i | i in s.owner ensures s.owner[i] in s.tasks {
      assert HoldsDump(cfg, s, s.owner[i], s.archive[i]);
    }
  }

  /** A call that reports success has created exactly the file it reports, of the kind of the call. */
  lemma SuccessOwnsItsFile(cfg: Config, db: Db, files: map<string, Stored>, events: seq<Event>, s: State, t: TaskId)
    requires Reachable(cfg, db, files, events, s) && t in s.tasks && s.tasks[t].pc.Finished?
    ensures s.tasks[t].pc.outcome.BackedUp? ==>
              Reports(s, t, s.tasks[t].pc.outcome.info) && s.tasks[t].pc.outcome.info.kind == Regular
    ensures s.tasks[t].pc.outcome.Restored? ==>
              Reports(s, t, s.tasks[t].pc.outcome.preRestore) && s.tasks[t].pc.outcome.preRestore.kind == PreRestore
  {
    ReachableInv(cfg, db, files, events, s);
    assert CreatedInv(s, t);
    match s.tasks[t].pc.outcome
    case BackedUp(info) => OwnedKind(cfg, s, t, info);
    case Restored(_, copy) => OwnedKind(cfg, s, t, copy);
    case _ =>
  }

  /** Every file the service created holds the database as some dump of its task saw it. */
  lemma BackupsLoad(cfg: Config, db: Db, files: map<string, Stored>, events: seq<Event>, s: State, id: string)
    requires Reachable(cfg, db, files, events, s) && id in s.owner
    ensures id in s.archive && s.owner[id] in s.snapshots
    ensures cfg.load(s.archive[id].content) == Some(s.snapshots[s.owner[id]])
  {
    ReachableInv(cfg, db, files, events, s);
    assert HoldsDump(cfg, s, s.owner[id], s.archive[id]);
  }

  /** The service deletes only regular pg_dump backups; every other removal is somebody else's. */
  lemma RemovesOnlyPrunable(cfg: Config, db: Db, files: map<string, Stored>, events: seq<Event>, s: State,
                            e: Event, id: string)
    requires Reachable(cfg, db, files, events, s) && Enabled(cfg, s, e)
    requires id in s.files && id !in Apply(cfg, s, e).files
    ensures (ToBackupInfo(s.files[id].meta).Success?
             && ToBackupInfo(s.files[id].meta).value.kind == Regular
             && ToBackupInfo(s.files[id].meta).value.format == PgCustom)
         || (e.Around? && e.change.RemoveFile?)
  {
    ReachableInv(cfg, db, files, events, s);
    match e
    case Act(t, a) => ActionRemoves(cfg, s, t, a, id);
    case Around(c) => ChangeRemoves(cfg, s, c, id);
  }

  lemma ChangeRemoves(cfg: Config, s: State, c: Change, id: string)
    requires Inv(cfg, s) && CanChange(s, c)
    requires id in s.files && id !in AfterChange(s, c).files
    ensures IsPrunable(s.files[id]) || c.RemoveFile?
  {
  }

  lemma ActionRemoves(cfg: Config, s: State, t: TaskId, a: Action, id: string)
    requires Inv(cfg, s) && CanAct(cfg, s, t, a)
    requires id in s.files && id !in AfterAct(cfg, s, t, a).files
    ensures IsPrunable(s.files[id])
  {
    if a.RemoveRemote? {
      PruningIsSafe(cfg, s, t);
    } else if Plain(a) {
      ActionLeaves(cfg, s, t, a);
    }
  }

  lemma PruningIsSafe(cfg: Config, s: State, t: TaskId)
    requires Inv(cfg, s) && t in s.tasks && s.tasks[t].pc.Deleting? && s.tasks[t].pc.todo != []
    ensures var id := s.tasks[t].pc.todo[0].id; id in s.files ==> IsPrunable(s.files[id])
  {
    HolderFacts(cfg, s, t);
    PendingIsNoCopy(s, s.tasks[t].pc.todo);
  }
}
