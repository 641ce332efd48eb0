/** `create_backup` and `restore` as the service writes them: straight-line code over the database, the
    folder, the temporary files and the lock, with other calls running at every await. Every execution
    is shown to be a run of the protocol machine, so what holds of all runs holds of this code. Contracts
    say `Valid() <==> true` where validity is passed on as one fact. */
module Service {
  import opened Core
  import opened Mapping
  import opened Retention
  import opened Protocol
  import opened ProtocolInvariant
  import opened ProtocolSafety
  import opened ProtocolHistory
  import opened ProtocolWindow
  import opened ServiceSpec

  /** Task `t` holds the lock exactly while it is between acquisition and release. */
  lemma LockFacts(cfg: Config, db: Db, files: map<string, Stored>, events: seq<Event>, s: State, t: TaskId)
    requires (Reachable(cfg, db, files, events, s) <==> true) && t in s.tasks
    ensures s.lock == Some(t) <==> Holding(s.tasks[t].pc)
  {
    ReachableInv(cfg, db, files, events, s);
  }

  /** The temporary files of a task are there. */
  lemma TempFacts(cfg: Config, db: Db, files: map<string, Stored>, events: seq<Event>, s: State, t: TaskId)
    requires (Reachable(cfg, db, files, events, s) <==> true) && t in s.tasks && Holding(s.tasks[t].pc)
    ensures s.temps.Keys == Held(s.tasks[t].pc)
  {
    Exclusion(cfg, db, files, events, s);
  }

  /** What a restore that reports success has loaded, with the report on the trace. */
  lemma FinishLoads(cfg: Config, db: Db, files: map<string, Stored>, events: seq<Event>, s: State, t: TaskId)
    returns (l: nat, held: Db)
    requires (Reachable(cfg, db, files, events, s) <==> true) && (CanAct(cfg, s, t, FinishRestore) <==> true)
    ensures l < |events| && events[l] == Act(t, Commit)
    ensures t in s.tasks && s.tasks[t].pc.Restoring? && HoldsDb(cfg, s, s.tasks[t].pc.restored.id, held)
    ensures Answers(cfg, s, s.tasks[t].call, s.tasks[t].pc.restored) <==> true
    ensures s.db == AfterWrites((events + [Act(t, FinishRestore)])[l..], held)
  {
    l, held := RestoreLoadsSource(cfg, db, files, events, s, t);
    assert (events + [Act(t, FinishRestore)])[l..] == events[l..] + [Act(t, FinishRestore)];
    LastWriteNext(events[l..], Act(t, FinishRestore));
  }

  lemma OwnsNothing(cfg: Config, db: Db, files: map<string, Stored>, events: seq<Event>, s: State, t: TaskId)
    requires (Reachable(cfg, db, files, events, s) <==> true) && t in s.tasks
    requires var pc := s.tasks[t].pc; pc.Locked? || pc.Downloaded? || pc.Dumping? || (pc.Uploading? && pc.created.None?)
    ensures forall id :: id in s.owner ==> s.owner[id] != t
  {
    ReachableInv(cfg, db, files, events, s);
    assert CreatedInv(s, t);
  }

  /** Temporary files change only by steps of the lock holder. */
  lemma ActionKeepsTemps(cfg: Config, s: State, u: TaskId, a: Action)
    requires CanAct(cfg, s, u, a) && !Holding(s.tasks[u].pc) && s.lock.Some?
    ensures AfterAct(cfg, s, u, a).temps == s.temps
  {
    assert s.temps - {} == s.temps;
  }

  lemma OthersKeepTemps(cfg: Config, db: Db, files: map<string, Stored>, events: seq<Event>, s: State, e: Event,
                        t: TaskId)
    requires (Reachable(cfg, db, files, events, s) <==> true) && (Enabled(cfg, s, e) <==> true) && OfOthers(e, t)
    requires t in s.tasks && Holding(s.tasks[t].pc)
    ensures Apply(cfg, s, e).temps == s.temps
  {
    match e
    case Act(u, a) =>
      OnlyHolder(cfg, db, files, events, s, t, u);
      ActionKeepsTemps(cfg, s, u, a);
    case Around(c) => ChangeKeepsTemps(s, c);
  }

  lemma ChangeKeepsTemps(s: State, c: Change)
    requires CanChange(s, c)
    ensures AfterChange(s, c).temps == s.temps
  {
  }

  /** Beside the holder no call is past the lock. */
  lemma OnlyHolder(cfg: Config, db: Db, files: map<string, Stored>, events: seq<Event>, s: State, t: TaskId, u: TaskId)
    requires (Reachable(cfg, db, files, events, s) <==> true) && t in s.tasks && Holding(s.tasks[t].pc)
    requires u in s.tasks && u != t
    ensures !Holding(s.tasks[u].pc) && s.lock.Some?
  {
    LockFacts(cfg, db, files, events, s, t);
    LockFacts(cfg, db, files, events, s, u);
  }

  // ---------- Positions ----------

  const BUSY := Busy("another backup or restore is in progress")

  /** Where opening a temporary file leads. */
  function Opened(pc: Pc, name: TempId): Pc {
    match pc
    case Resolved(restored) => Downloading(restored, name)
    case Downloaded(restored, dst) => Dumping(PreRestoreJob(restored, dst), name, false)
    case _ => Dumping(RegularJob, name, false)
  }

  /** The temporary file of a dump in progress. */
  function DumpTemp(pc: Pc): set<TempId> {
    match pc
    case Dumping(_, tmp, _) => {tmp}
    case Uploading(_, tmp, _, _) => {tmp}
    case _ => {}
  }

  /** The job of a dump that starts from `pc`. */
  predicate Starts(call: Call, pc: Pc, job: Job) {
    match job
    case RegularJob => pc == Locked && call.CreateBackup?
    case PreRestoreJob(restored, dst) => pc == Downloaded(restored, dst) && call.Restore?
  }

  /** A dump for `job` that started from `pc0` has come to `pc`. */
  predicate DumpCame(pc0: Pc, job: Job, pc: Pc) {
    pc == pc0 || (pc.Dumping? && pc.job == job) || (pc.Uploading? && pc.job == job)
  }

  class BackupService {
    const cfg: Config
    var db: Db
    var files: map<string, Stored>
    var temps: map<TempId, Bytes>
    var locked: bool

    /** The machine's view of the same service, with every other call in it, and how it got there. */
    var world: State
    ghost var trace: seq<Event>
    ghost const firstDb: Db
    ghost const firstFiles: map<string, Stored>

    ghost predicate Agrees()
      reads this
    {
      world.db == db && world.files == files && world.temps == temps && (world.lock.Some? <==> locked)
    }

    twostate predicate Untouched()
      reads this
    {
      db == old(db) && files == old(files) && temps == old(temps) && locked == old(locked)
    }

    /** A file that task `t` created is on record. */
    ghost predicate Owns(t: TaskId)
      reads this
    {
      exists id :: id in world.owner && world.owner[id] == t
    }

    /** Nothing at all has happened. */
    twostate predicate Still()
      reads this
    {
      world == old(world) && trace == old(trace) && Untouched()
    }

    /** No id was given away. */
    twostate predicate SameIds()
      reads this
    {
      world.archive == old(world).archive
    }

    /** The machine is in a reachable state. */
    ghost predicate Legal()
      reads this
    {
      Reachable(cfg, firstDb, firstFiles, trace, world) <==> true
    }

    ghost predicate Valid()
      reads this
    {
      Agrees() && Legal()
    }

    /** What holds of every run holds wherever this code stands: every database that a restore has
        overwritten is kept in a stored copy exactly when the window of that restore was harmless, and
        always when only the service writes the database. */
    lemma NothingIsLost(i: nat) returns (j: nat, l: nat, seen: State)
      requires (Valid() <==> true) && i < |world.overwrites|
      ensures world.overwrites[i].copy in files && j < l < |trace|
      ensures trace[j] == Act(world.overwrites[i].task, TakeSnapshot)
      ensures trace[l] == Act(world.overwrites[i].task, Commit)
      ensures Reachable(cfg, firstDb, firstFiles, trace[..j], seen) <==> true
      ensures KeepsCopyOf(cfg, world, world.overwrites[i].copy, world.overwrites[i].lost)
         <==> Harmless(trace, j, l, seen.db)
      ensures OnlyService(trace) ==> Harmless(trace, j, l, seen.db)
    {
      j, l, seen := OverwrittenIsKept(cfg, firstDb, firstFiles, trace, world, i);
      if OnlyService(trace) {
        NoWrites(trace[j..l]);
      }
    }

    /** The restore by `t` has worked on the file it was asked for, and the database is what that file
        holds, overlaid by what other programs wrote after the commit. */
    ghost predicate LoadedFrom(t: TaskId, call: Call, restored: BackupInfo)
      reads this
    {
      && Answers(cfg, world, call, restored)
      && exists l, held :: LoadedAt(t, restored, l, held)
    }

    ghost predicate LoadedAt(t: TaskId, restored: BackupInfo, l: nat, held: Db)
      reads this
    {
      && l < |trace| && trace[l] == Act(t, Commit)
      && HoldsDb(cfg, world, restored.id, held) && db == AfterWrites(trace[l..], held)
    }

    constructor (cfg: Config, db: Db, files: map<string, Stored>)
      requires ProperIds(files)
      ensures Valid() && this.cfg == cfg && world == Init(db, files) && trace == []
      ensures firstDb == db && firstFiles == files
    {
      this.cfg := cfg;
      this.db := db;
      this.files := files;
      temps := map[];
      locked := false;
      world := Init(db, files);
      trace := [];
      firstDb, firstFiles := db, files;
    }

    /** The machine takes one step. */
    method Record(e: Event)
      requires (Legal() <==> true) && (Enabled(cfg, world, e) <==> true)
      modifies `world, `trace
      ensures Legal() && world == Apply(cfg, old(world), e) && trace == old(trace) + [e]
    {
      RunAppend(cfg, Init(firstDb, firstFiles), trace, world, e);
      world, trace := Apply(cfg, world, e), trace + [e];
    }

    ghost predicate Stands(t: TaskId, call: Call, pc: Pc)
      reads this
    {
      t in world.tasks && world.tasks[t] == Task(call, pc)
    }

    method RecordOther(t: TaskId, e: Event)
      requires (Legal() <==> true) && t in world.tasks
      modifies `world, `trace
      ensures (Legal() <==> true) && (SameTask(old(world), world, t) <==> true) && old(trace) <= trace
      ensures t in old(world).snapshots ==> (SameSnapshot(old(world), world, t) <==> true)
      ensures Holding(old(world).tasks[t].pc) ==> world.temps == old(world).temps
    {
      var possible := OfOthers(e, t) && Enabled(cfg, world, e);
      if possible {
        OthersKeepTask(cfg, world, e, t);
        if Holding(world.tasks[t].pc) {
          OthersKeepTemps(cfg, firstDb, firstFiles, trace, world, e, t);
        }
        if t in world.snapshots {
          SnapshotStays(cfg, world, e, t);
        }
        Record(e);
      }
    }

    /** Somebody else moves, if that is possible now. */
    method LetHappen(t: TaskId, e: Event)
      requires (Legal() <==> true) && t in world.tasks
      modifies this
      ensures (Valid() <==> true) && (SameTask(old(world), world, t) <==> true) && old(trace) <= trace
      ensures t in old(world).snapshots ==> (SameSnapshot(old(world), world, t) <==> true)
      ensures Holding(old(world).tasks[t].pc) ==> temps == old(world).temps
    {
      RecordOther(t, e);
      db, files, temps, locked := world.db, world.files, world.temps, world.lock.Some?;
    }

    /** At an await the events of others happen, each one that can; the call itself stays where it is. */
    method Await(t: TaskId, call: Call, ghost pc: Pc, others: seq<Event>)
      requires (Valid() <==> true) && Stands(t, call, pc)
      modifies this
      ensures (Valid() <==> true) && Stands(t, call, pc) && old(trace) <= trace
      ensures t in old(world).snapshots ==> (SameSnapshot(old(world), world, t) <==> true)
      ensures Holding(pc) ==> temps == old(temps)
      ensures others == [] ==> (Still() <==> true)
    {
      for i := 0 to |others|
        invariant (Valid() <==> true) && Stands(t, call, pc) && old(trace) <= trace
        invariant t in old(world).snapshots ==> (SameSnapshot(old(world), world, t) <==> true)
        invariant Holding(pc) ==> temps == old(temps)
        invariant i == 0 ==> (Still() <==> true)
      {
        LetHappen(t, others[i]);
      }
    }

    /** The try-lock: a caller that finds it taken ends at once, having changed nothing. */
    method Lock(t: TaskId, call: Call) returns (ok: bool)
      requires (Valid() <==> true) && Stands(t, call, Begun) && Confirmed(cfg, call)
      modifies this
      ensures (Valid() <==> true) && old(trace) <= trace && ok == !old(locked)
      ensures Stands(t, call, if ok then Locked else Finished(Failed(BUSY)))
      ensures db == old(db) && files == old(files) && temps == old(temps) && locked && SameIds()
    {
      LockFacts(cfg, firstDb, firstFiles, trace, world, t);
      ok := !locked;
      if ok {
        Record(Act(t, Acquire));
        locked := true;
      } else {
        Record(Act(t, FindBusy));
      }
    }

    /** A fresh temporary file. */
    method TempFile(t: TaskId, call: Call, ghost pc: Pc, name: Reply<TempId>) returns (r: Reply<TempId>)
      requires (Valid() <==> true) && Stands(t, call, pc) && WantsTemp(Task(call, pc))
      modifies this
      ensures (Valid() <==> true) && old(trace) <= trace && SameIds() && db == old(db) && files == old(files)
      ensures r == TempAnswer(old(temps), name) && (!r.Got? ==> world == old(world) && trace == old(trace))
      ensures temps == if r.Got? then old(temps)[r.value := []] else old(temps)
      ensures Stands(t, call, if r.Got? then Opened(pc, r.value) else pc)
    {
      if name.Got? && name.value in temps {
        return Err(Io("Could not create temporary file"));
      }
      if name.Got? {
        Record(Act(t, OpenTemp(name.value)));
        temps := temps[name.value := []];
      }
      return name;
    }

    method RecordEnd(t: TaskId, a: Action, ghost outcome: Outcome)
      requires (Legal() <==> true) && (CanAct(cfg, world, t, a) <==> true)
      requires AfterAct(cfg, world, t, a) == Ended(world, t, outcome)
      modifies `world, `trace
      ensures (Legal() <==> true) && t in old(world).tasks && world == Ended(old(world), t, outcome)
      ensures trace == old(trace) + [Act(t, a)]
    {
      Record(Act(t, a));
    }

    /** The call ends: its guard and the temporary files it still has are dropped. */
    method Leave(t: TaskId, call: Call, ghost pc: Pc, a: Action, mine: set<TempId>, ghost outcome: Outcome)
      requires (Legal() <==> true) && Stands(t, call, pc) && Holding(pc)
      requires db == world.db && files == world.files && temps - mine == world.temps - Held(pc)
      requires (CanAct(cfg, world, t, a) <==> true) && AfterAct(cfg, world, t, a) == Ended(world, t, outcome)
      modifies this
      ensures (Valid() <==> true) && trace == old(trace) + [Act(t, a)] && SameIds() && world.owner == old(world).owner
      ensures !locked && db == old(db) && files == old(files) && temps == old(temps) - mine
      ensures Stands(t, call, Finished(outcome))
    {
      LockFacts(cfg, firstDb, firstFiles, trace, world, t);
      RecordEnd(t, a, outcome);
      temps := temps - mine;
      locked := false;
    }

    /** Task `t` has met obstacle `why`, and that is why `reply` came. */
    ghost predicate Hindered(from: nat, t: TaskId, call: Call, script: Script, why: Obstacle, reply: Reply<()>)
      reads this
    {
      && !reply.Got? && Met(cfg, call, script, why) == reply
      && (Occurred(cfg, firstDb, firstFiles, trace, from, t, why) <==> true)
    }

    /** The answer of a call: the one of success, or that of an obstacle it has met. */
    ghost predicate Told(from: nat, t: TaskId, call: Call, script: Script, why: Obstacle, outcome: Outcome)
      reads this
    {
      if why.Nothing? then Succeeds(cfg, call, script, outcome)
      else exists reply :: Hindered(from, t, call, script, why, reply) && outcome == Ends(reply)
    }

    /** An error or a cancellation ends the call. */
    method Stop(ghost from: nat, t: TaskId, call: Call, ghost pc: Pc, ghost script: Script, ghost why: Obstacle,
                reply: Reply<()>, mine: set<TempId>)
      returns (outcome: Outcome)
      requires (Legal() <==> true) && Stands(t, call, pc) && Holding(pc) && (reply.Err? ==> MayFail(pc))
      requires Hindered(from, t, call, script, why, reply)
      requires db == world.db && files == world.files && temps - mine == world.temps - Held(pc)
      modifies this
      ensures (Valid() <==> true) && old(trace) <= trace && !locked && files == old(files) && db == old(db)
      ensures Stands(t, call, Finished(outcome)) && outcome == Ends(reply) && !why.Nothing?
      ensures world.owner == old(world).owner
      ensures Told(from, t, call, script, why, outcome) <==> true
    {
      outcome := Ends(reply);
      Leave(t, call, pc, if reply.Err? then Fail(reply.error) else Cancel, mine, outcome);
      OccurredStays(cfg, firstDb, firstFiles, old(trace), trace, from, t, why);
      assert Hindered(from, t, call, script, why, reply);
    }

    /** `resolve`: some file that answers the target. */
    method Resolve(t: TaskId, call: Call, script: Script) returns (r: Reply<BackupInfo>)
      requires (Valid() <==> true) && Stands(t, call, Locked) && call.Restore?
      modifies this
      ensures (Valid() <==> true) && old(trace) <= trace && SameIds() && db == old(db) && files == old(files)
      ensures temps == old(temps) && (!r.Got? ==> world == old(world) && trace == old(trace))
      ensures r == ResolveAnswer(cfg, old(files), call.target, script.resolved)
      ensures Stands(t, call, if r.Got? then Resolved(r.value) else Locked)
    {
      r := ResolveAnswer(cfg, files, call.target, script.resolved);
      if r.Got? {
        Record(Act(t, Action.Resolve(r.value)));
      }
    }

    /** `download`: the content of the file, into `dst`. */
    method Download(t: TaskId, call: Call, info: BackupInfo, dst: TempId, script: Script) returns (r: Reply<()>)
      requires (Valid() <==> true) && Stands(t, call, Downloading(info, dst))
      modifies this
      ensures (Valid() <==> true) && old(trace) <= trace && SameIds() && db == old(db) && files == old(files)
      ensures r == DownloadAnswer(old(files), info, script.downloaded)
      ensures !r.Got? ==> world == old(world) && trace == old(trace) && temps == old(temps)
      ensures r.Got? ==> info.id in files && temps == old(temps)[dst := files[info.id].content]
      ensures Stands(t, call, if r.Got? then Downloaded(info, dst) else Downloading(info, dst))
    {
      r := DownloadAnswer(files, info, script.downloaded);
      if r.Got? {
        Record(Act(t, FinishDownload));
        temps := temps[dst := files[info.id].content];
      }
    }

    /** `pg_dump` fixes the database it is going to write out. */
    method Look(t: TaskId, call: Call, job: Job, tmp: TempId) returns (seen: Db)
      requires (Valid() <==> true) && Stands(t, call, Dumping(job, tmp, false))
      modifies this
      ensures (Valid() <==> true) && old(trace) <= trace && Stands(t, call, Dumping(job, tmp, true)) && SameIds()
      ensures t in world.snapshots && world.snapshots[t] == seen == db
      ensures db == old(db) && files == old(files) && temps == old(temps)
    {
      Record(Act(t, TakeSnapshot));
      seen := db;
    }

    /** `pg_dump`: an archive that loads to the database it saw when it began. */
    method Dump(t: TaskId, call: Call, job: Job, tmp: TempId, archive: Bytes, now: string)
      requires (Valid() <==> true) && Stands(t, call, Dumping(job, tmp, true))
      requires t in world.snapshots && cfg.load(archive) == Some(world.snapshots[t])
      modifies this
      ensures (Valid() <==> true) && old(trace) <= trace && SameIds()
      ensures Stands(t, call, Uploading(job, tmp, DumpMetadata(cfg, call, now), None))
      ensures db == old(db) && files == old(files) && temps == old(temps)[tmp := archive]
    {
      Record(Act(t, FinishDump(archive, now)));
      temps := temps[tmp := archive];
    }

    /** The request reaches Drive, or not. */
    method Arrive(t: TaskId, call: Call, job: Job, tmp: TempId, meta: DriveFile, script: Script)
      returns (created: Option<BackupInfo>)
      requires (Valid() <==> true) && Stands(t, call, Uploading(job, tmp, meta, None)) && tmp in temps
      modifies this
      ensures (Valid() <==> true) && old(trace) <= trace && Stands(t, call, Uploading(job, tmp, meta, created))
      ensures db == old(db) && temps == old(temps)
      ensures Arrival(old(world).archive, script.arrives).None? ==> created.None?
      ensures Arrival(old(world).archive, script.arrives).Some? ==>
                var (id, time, md5) := script.arrives.value;
                var file := StoredAs(Stored(meta, temps[tmp]), id, time, md5);
                && files == old(files)[id := file]
                && (ToBackupInfo(file.meta).Success? ==> created == Some(ToBackupInfo(file.meta).value))
    {
      created := None;
      var arrival := Arrival(world.archive, script.arrives);
      if arrival.Some? {
        var (id, time, md5) := arrival.value;
        var file := StoredAs(Stored(meta, temps[tmp]), id, time, md5);
        Record(Act(t, StoreUpload(id, time, md5)));
        files := files[id := file];
        created := if ToBackupInfo(file.meta).Success? then Some(ToBackupInfo(file.meta).value) else None;
      }
    }

    /** `pg_restore` in one transaction: the database becomes what the archive holds, or stays. */
    method Load(t: TaskId, call: Call, restored: BackupInfo, copy: BackupInfo, dst: TempId, commits: bool)
      returns (done: bool)
      requires (Valid() <==> true) && Stands(t, call, Restoring(restored, copy, dst, false)) && dst in temps
      modifies this
      ensures (Valid() <==> true) && old(trace) <= trace && Stands(t, call, Restoring(restored, copy, dst, done))
      ensures files == old(files) && temps == old(temps) && done == (commits && cfg.load(temps[dst]).Some?)
      ensures db == if done then cfg.load(temps[dst]).value else old(db)
    {
      done := commits && cfg.load(temps[dst]).Some?;
      if done {
        Record(Act(t, Commit));
        db := cfg.load(temps[dst]).value;
      }
    }

    /** The call has stored its dump. */
    twostate predicate StoredNew(call: Call, script: Script)
      reads this
    {
      HasDump(script) && files == old(files)[NewId(script) := NewFile(cfg, call, script)]
    }

    /** How far `pg_dump` got, and what it saw if it got to look. */
    method Watch(ghost from: nat, t: TaskId, call: Call, job: Job, tmp: TempId, script: Script)
      returns (seen: Option<Db>, ghost at: State)
      requires (Valid() <==> true) && Stands(t, call, Dumping(job, tmp, false)) && from <= |trace|
      modifies this
      ensures (Valid() <==> true) && old(trace) <= trace && Stands(t, call, Dumping(job, tmp, seen.Some?))
      ensures seen == (if script.looks then Some(at.db) else None) && temps == old(temps)
      ensures seen.Some? ==> t in world.snapshots && world.snapshots[t] == seen.value
      ensures Occurred(cfg, firstDb, firstFiles, trace, from, t, NotDumped(at)) <==> true
      ensures Alone(script) ==> at.db == old(db) && db == old(db) && files == old(files) && SameIds()
    {
      Await(t, call, Dumping(job, tmp, false), script.others(2));
      seen, at := None, world;
      ghost var before := trace;
      VisitedNow(cfg, firstDb, firstFiles, trace, from, at);
      if script.looks {
        var saw := Look(t, call, job, tmp);
        Await(t, call, Dumping(job, tmp, true), script.others(7));
        seen := Some(saw);
      }
      OccurredStays(cfg, firstDb, firstFiles, before, trace, from, t, NotDumped(at));
    }

    /** The file that arrives is the new file. */
    lemma ArrivedFile(call: Call, script: Script)
      requires HasDump(script)
      ensures var (id, time, md5) := script.arrives.value;
              var (archive, now) := script.dumped.value;
              var file := StoredAs(Stored(DumpMetadata(cfg, call, now), archive), id, time, md5);
              && file == NewFile(cfg, call, script)
              && ToBackupInfo(file.meta) == Success(NewInfo(cfg, call, script))
    {
      NewFileMaps(cfg, call, script);
    }

    /** The request is under way, and arrives or not. */
    method Send(ghost from: nat, t: TaskId, call: Call, job: Job, tmp: TempId, meta: DriveFile, script: Script)
      returns (created: Option<BackupInfo>, ghost at: State)
      requires script.dumped.Got? && meta == DumpMetadata(cfg, call, script.dumped.value.1)
      requires from <= |trace| && (Valid() <==> true) && Stands(t, call, Uploading(job, tmp, meta, None))
      requires tmp in temps && temps[tmp] == script.dumped.value.0
      modifies this
      ensures (Valid() <==> true) && old(trace) <= trace && Stands(t, call, Uploading(job, tmp, meta, created))
      ensures temps == old(temps) && (Occurred(cfg, firstDb, firstFiles, trace, from, t, NotStored(at)) <==> true)
      ensures created.None? ==> Arrival(at.archive, script.arrives).None?
      ensures created.Some? ==> HasDump(script) && created.value == NewInfo(cfg, call, script)
      ensures Alone(script) ==> at.archive == old(world).archive && db == old(db)
      ensures Alone(script) && created.Some? ==> StoredNew(call, script)
    {
      Await(t, call, Uploading(job, tmp, meta, None), script.others(3));
      at := world;
      ghost var before := trace;
      VisitedNow(cfg, firstDb, firstFiles, trace, from, at);
      if script.arrives.Some? {
        ArrivedFile(call, script);
      }
      created := Arrive(t, call, job, tmp, meta, script);
      OccurredStays(cfg, firstDb, firstFiles, before, trace, from, t, NotStored(at));
    }

    /** One attempt: the reply may be lost although the file was created. */
    method Upload(ghost from: nat, t: TaskId, call: Call, job: Job, tmp: TempId, script: Script)
      returns (r: Reply<BackupInfo>, ghost pc: Pc, ghost why: Obstacle)
      requires script.dumped.Got? && from <= |trace| && (Valid() <==> true)
      requires Stands(t, call, Uploading(job, tmp, DumpMetadata(cfg, call, script.dumped.value.1), None))
      requires tmp in temps && temps[tmp] == script.dumped.value.0
      modifies this
      ensures (Legal() <==> true) && old(trace) <= trace && Stands(t, call, pc)
      ensures pc.Uploading? && pc.job == job && pc.tmp == tmp && (r.Got? ==> pc.created == Some(r.value))
      ensures db == world.db && files == world.files && locked == world.lock.Some?
      ensures temps == world.temps - {tmp} == old(temps) - {tmp}
      ensures r.Got? ==> why.Nothing? && HasDump(script) && r.value == NewInfo(cfg, call, script)
      ensures !r.Got? ==> Hindered(from, t, call, script, why, r.Bare())
      ensures !r.Got? && script.uploaded.Got? ==> !(pc.Uploading? && pc.created.Some?)
      ensures Alone(script) && Arrival(old(world).archive, script.arrives).Some? && script.uploaded.Got? ==>
                r.Got? && StoredNew(call, script) && db == old(db)
    {
      var meta := DumpMetadata(cfg, call, script.dumped.value.1);
      var created; ghost var at;
      created, at := Send(from, t, call, job, tmp, meta, script);
      pc := Uploading(job, tmp, meta, created);
      ghost var before := trace;
      Await(t, call, pc, script.others(4));
      OccurredStays(cfg, firstDb, firstFiles, before, trace, from, t, NotStored(at));
      temps := temps - {tmp};
      r, why := UploadReply(script, created), UploadObstacle(script, created, at);
      UploadHindered(cfg, call, script, created, at);
    }

    method DumpInto(ghost from: nat, t: TaskId, call: Call, job: Job, tmp: TempId, script: Script)
      returns (r: Reply<BackupInfo>, ghost pc: Pc, ghost why: Obstacle)
      requires (Valid() <==> true) && Stands(t, call, Dumping(job, tmp, false)) && from <= |trace|
      modifies this
      ensures (Legal() <==> true) && old(trace) <= trace && Stands(t, call, pc)
      ensures (pc.Dumping? || pc.Uploading?) && pc.job == job && pc.tmp == tmp
      ensures r.Got? ==> pc.Uploading? && pc.created == Some(r.value)
      ensures db == world.db && files == world.files && locked == world.lock.Some?
      ensures temps == world.temps - {tmp} == old(temps) - {tmp}
      ensures r.Got? ==> why.Nothing? && HasDump(script) && r.value == NewInfo(cfg, call, script)
      ensures !r.Got? ==> Hindered(from, t, call, script, why, r.Bare())
      ensures !r.Got? && script.uploaded.Got? ==> !(pc.Uploading? && pc.created.Some?)
      ensures Alone(script) && GoodDump(cfg, script, old(db), old(temps) - {tmp}, old(world).archive) ==>
                r.Got? && StoredNew(call, script) && db == old(db)
    {
      var seen; ghost var at;
      seen, at := Watch(from, t, call, job, tmp, script);
      pc, why := Dumping(job, tmp, seen.Some?), NotDumped(at);
      var dumped := DumpAnswer(cfg, seen, script.dumped);
      if dumped.Got? {
        Dump(t, call, job, tmp, dumped.value.0, dumped.value.1);
        r, pc, why := Upload(from, t, call, job, tmp, script);
      } else {
        temps := temps - {tmp};
        r := dumped.Passed();
      }
    }

    /** `dump_and_upload`: its temporary file is gone when it returns, however it returns. It returns the
        new backup, or the answer it ran into. */
    method DumpAndUpload(ghost from: nat, t: TaskId, call: Call, ghost pc0: Pc, job: Job, script: Script)
      returns (r: Reply<BackupInfo>, ghost pc: Pc, ghost why: Obstacle)
      requires (Valid() <==> true) && Stands(t, call, pc0) && Starts(call, pc0, job) && from <= |trace|
      modifies this
      ensures (Legal() <==> true) && old(trace) <= trace && Stands(t, call, pc) && DumpCame(pc0, job, pc)
      ensures db == world.db && files == world.files && locked == world.lock.Some?
      ensures temps == world.temps - DumpTemp(pc) == old(temps)
      ensures r.Got? ==> pc.Uploading? && pc.created == Some(r.value)
      ensures r.Got? ==> why.Nothing? && HasDump(script) && r.value == NewInfo(cfg, call, script)
      ensures !r.Got? ==> Hindered(from, t, call, script, why, r.Bare())
      ensures !r.Got? && script.uploaded.Got? ==> !(pc.Uploading? && pc.created.Some?)
      ensures Alone(script) && GoodDump(cfg, script, old(db), old(temps), old(world).archive) ==>
                r.Got? && StoredNew(call, script) && db == old(db)
    {
      pc, why := pc0, NoDumpFile(world);
      VisitedNow(cfg, firstDb, firstFiles, trace, from, world);
      var temp := TempFile(t, call, pc, script.tmp);
      if temp.Got? {
        assert old(temps)[temp.value := []] - {temp.value} == old(temps);
        r, pc, why := DumpInto(from, t, call, job, temp.value, script);
      } else {
        r := temp.Passed();
      }
    }

    // ---------- restore ----------

    method ReportRestored(t: TaskId, call: Call, restored: BackupInfo, copy: BackupInfo, dst: TempId)
      returns (outcome: Outcome)
      requires (Valid() <==> true) && Stands(t, call, Restoring(restored, copy, dst, true))
      modifies this
      ensures (Valid() <==> true) && old(trace) <= trace && !locked
      ensures db == old(db) && files == old(files) && temps == old(temps) - {dst}
      ensures outcome == Restored(restored, copy) && Stands(t, call, Finished(outcome))
      ensures LoadedFrom(t, call, restored)
    {
      outcome := Restored(restored, copy);
      ghost var l, held := FinishLoads(cfg, firstDb, firstFiles, trace, world, t);
      Leave(t, call, Restoring(restored, copy, dst, true), FinishRestore, {dst}, outcome);
      AnswersStay(cfg, old(world), world, call, restored);
      assert LoadedAt(t, restored, l, held);
    }

    /** `pg_restore` runs and answers. */
    method RunRestore(ghost from: nat, t: TaskId, call: Call, restored: BackupInfo, copy: BackupInfo, dst: TempId,
                      script: Script)
      returns (done: bool, ghost at: State)
      requires (Valid() <==> true) && Stands(t, call, Restoring(restored, copy, dst, false)) && dst in temps
      requires from <= |trace|
      modifies this
      ensures (Valid() <==> true) && old(trace) <= trace && Stands(t, call, Restoring(restored, copy, dst, done))
      ensures temps == old(temps) == at.temps && done == (script.commits && cfg.load(temps[dst]).Some?)
      ensures Occurred(cfg, firstDb, firstFiles, trace, from, t, NotLoaded(at)) <==> true
      ensures Alone(script) ==> files == old(files) && db == if done then cfg.load(temps[dst]).value else old(db)
    {
      Await(t, call, Restoring(restored, copy, dst, false), script.others(5));
      at := world;
      ghost var before := trace;
      VisitedNow(cfg, firstDb, firstFiles, trace, from, at);
      done := Load(t, call, restored, copy, dst, script.commits);
      Await(t, call, Restoring(restored, copy, dst, done), script.others(6));
      OccurredStays(cfg, firstDb, firstFiles, before, trace, from, t, NotLoaded(at));
    }

    /** The last part: `pg_restore` of the downloaded file. */
    method RestoreUploaded(ghost from: nat, t: TaskId, call: Call, restored: BackupInfo, copy: BackupInfo, dst: TempId,
                           script: Script)
      returns (outcome: Outcome, ghost why: Obstacle)
      requires (Valid() <==> true) && Stands(t, call, Restoring(restored, copy, dst, false)) && dst in temps
      requires from <= |trace| && call.Restore? && HasDump(script) && copy == NewInfo(cfg, call, script)
      requires script.resolved == Got(restored) && restored.format == PgCustom && script.dst == Got(dst)
      modifies this
      ensures (Valid() <==> true) && old(trace) <= trace && Stands(t, call, Finished(outcome))
      ensures Told(from, t, call, script, why, outcome) <==> true
      ensures outcome.Restored? ==> LoadedFrom(t, call, outcome.restored)
      ensures Alone(script) && GoodLoad(cfg, script, old(temps)[dst]) ==>
                && why.Nothing? && db == cfg.load(old(temps)[dst]).value && files == old(files)
                && temps == old(temps) - {dst} && !locked
    {
      var done; ghost var at;
      done, at := RunRestore(from, t, call, restored, copy, dst, script);
      if done && script.restored.Got? {
        why := Nothing;
        outcome := ReportRestored(t, call, restored, copy, dst);
      } else {
        why := if script.restored.Got? then NotLoaded(at) else NoRestoreReply;
        var reply := if script.restored.Got? then Err(Process("pg_restore")) else script.restored;
        outcome := Stop(from, t, call, Restoring(restored, copy, dst, done), script, why, reply, {dst});
      }
    }

    /** The copy is stored; now the restore may begin. */
    method FinishCopy(t: TaskId, call: Call, ghost pc: Pc, restored: BackupInfo, copy: BackupInfo, dst: TempId)
      requires (Legal() <==> true) && Stands(t, call, pc) && call.Restore?
      requires pc.Uploading? && pc.job == PreRestoreJob(restored, dst) && pc.created == Some(copy)
      requires db == world.db && files == world.files && locked == world.lock.Some? && temps == world.temps - {pc.tmp}
      modifies this
      ensures (Valid() <==> true) && old(trace) <= trace && Stands(t, call, Restoring(restored, copy, dst, false))
      ensures db == old(db) && files == old(files) && temps == old(temps)
    {
      Record(Act(t, FinishUpload));
    }

    /** From the downloaded file on: first the copy, then the restore. */
    method RestoreDownloaded(ghost from: nat, t: TaskId, call: Call, restored: BackupInfo, dst: TempId, script: Script)
      returns (outcome: Outcome, ghost why: Obstacle)
      requires (Valid() <==> true) && Stands(t, call, Downloaded(restored, dst)) && call.Restore? && dst in temps
      requires from <= |trace| && script.resolved == Got(restored) && restored.format == PgCustom
      requires script.dst == Got(dst)
      modifies this
      ensures (Valid() <==> true) && old(trace) <= trace && Stands(t, call, Finished(outcome))
      ensures Told(from, t, call, script, why, outcome) <==> true
      ensures outcome.Restored? ==> LoadedFrom(t, call, outcome.restored)
      ensures Alone(script) && GoodDump(cfg, script, old(db), old(temps), old(world).archive)
              && GoodLoad(cfg, script, old(temps)[dst]) ==>
                && why.Nothing? && db == cfg.load(old(temps)[dst]).value && StoredNew(call, script)
                && temps == old(temps) - {dst} && !locked
    {
      var r; ghost var pc;
      r, pc, why := DumpAndUpload(from, t, call, Downloaded(restored, dst), PreRestoreJob(restored, dst), script);
      if r.Got? {
        FinishCopy(t, call, pc, restored, r.value, dst);
        outcome, why := RestoreUploaded(from, t, call, restored, r.value, dst, script);
      } else {
        outcome := Stop(from, t, call, pc, script, why, r.Bare(), {dst});
      }
    }

    /** The chosen file is fetched into a temporary file. */
    method Fetch(ghost from: nat, t: TaskId, call: Call, restored: BackupInfo, script: Script)
      returns (r: Reply<()>, ghost pc: Pc, mine: set<TempId>, ghost why: Obstacle)
      requires (Valid() <==> true) && Stands(t, call, Resolved(restored)) && restored.format.PgCustom?
      requires from <= |trace| && script.resolved == Got(restored)
      modifies this
      ensures (Valid() <==> true) && old(trace) <= trace && Stands(t, call, pc) && mine == Held(pc) && MayFail(pc)
      ensures r.Got? ==> script.dst.Got? && pc == Downloaded(restored, script.dst.value) && script.dst.value in temps
      ensures !r.Got? ==> Hindered(from, t, call, script, why, r)
      ensures Alone(script) && GoodFetch(script, old(files), old(temps), restored) ==>
                && r.Got? && db == old(db) && files == old(files) && SameIds()
                && temps == old(temps)[script.dst.value := old(files)[restored.id].content]
    {
      pc, mine, why := Resolved(restored), {}, NoDownloadFile(world);
      VisitedNow(cfg, firstDb, firstFiles, trace, from, world);
      var temp := TempFile(t, call, pc, script.dst);
      if !temp.Got? {
        r := temp.Bare();
        return;
      }
      r, pc, why := FetchInto(from, t, call, restored, temp.value, script);
      mine := {temp.value};
    }

    method FetchInto(ghost from: nat, t: TaskId, call: Call, restored: BackupInfo, dst: TempId, script: Script)
      returns (r: Reply<()>, ghost pc: Pc, ghost why: Obstacle)
      requires (Valid() <==> true) && Stands(t, call, Downloading(restored, dst))
      requires from <= |trace| && script.resolved == Got(restored) && script.dst == Got(dst)
      modifies this
      ensures (Valid() <==> true) && old(trace) <= trace && Stands(t, call, pc)
      ensures pc == if r.Got? then Downloaded(restored, dst) else Downloading(restored, dst)
      ensures r.Got? ==> dst in temps
      ensures !r.Got? ==> Hindered(from, t, call, script, why, r)
      ensures Alone(script) && restored.id in old(files) && script.downloaded.Got? ==>
                && r.Got? && db == old(db) && files == old(files) && SameIds()
                && temps == old(temps)[dst := old(files)[restored.id].content]
    {
      pc := Downloading(restored, dst);
      Await(t, call, pc, script.others(1));
      why := NotDownloaded(world);
      VisitedNow(cfg, firstDb, firstFiles, trace, from, world);
      r := Download(t, call, restored, dst, script);
      if r.Got? {
        pc := Downloaded(restored, dst);
      }
    }

    method RestoreResolved(ghost from: nat, t: TaskId, call: Call, restored: BackupInfo, script: Script)
      returns (outcome: Outcome, ghost why: Obstacle)
      requires (Valid() <==> true) && Stands(t, call, Resolved(restored)) && call.Restore?
      requires from <= |trace| && script.resolved == Got(restored)
      modifies this
      ensures (Valid() <==> true) && old(trace) <= trace && Stands(t, call, Finished(outcome))
      ensures Told(from, t, call, script, why, outcome) <==> true
      ensures outcome.Restored? ==> LoadedFrom(t, call, outcome.restored)
      ensures Alone(script) && GoodRest(cfg, script, restored, old(db), old(files), old(temps), old(world).archive) ==>
                && why.Nothing? && db == cfg.load(old(files)[restored.id].content).value && StoredNew(call, script)
                && temps == old(temps) && !locked
    {
      if !restored.format.PgCustom? {
        why := WrongFormat;
        outcome := Stop(from, t, call, Resolved(restored), script, why, Err(FailedPrecondition("format")), {});
        return;
      }
      var r; var mine; ghost var pc;
      r, pc, mine, why := Fetch(from, t, call, restored, script);
      if !r.Got? {
        outcome := Stop(from, t, call, pc, script, why, r, mine);
        return;
      }
      outcome, why := RestoreDownloaded(from, t, call, restored, script.dst.value, script);
      RestTemps(restored, script, old(temps), old(files));
    }

    lemma RestTemps(info: BackupInfo, script: Script, temps: map<TempId, Bytes>, files: map<string, Stored>)
      ensures GoodFetch(script, files, temps, info) ==>
                temps[script.dst.value := files[info.id].content] - {script.dst.value} == temps
    {
    }

    /** With the lock in hand. */
    method RestoreLocked(ghost from: nat, t: TaskId, call: Call, script: Script)
      returns (outcome: Outcome, ghost why: Obstacle)
      requires (Valid() <==> true) && Stands(t, call, Locked) && call.Restore? && from <= |trace|
      modifies this
      ensures (Valid() <==> true) && old(trace) <= trace && Stands(t, call, Finished(outcome))
      ensures Told(from, t, call, script, why, outcome) <==> true
      ensures outcome.Restored? ==> LoadedFrom(t, call, outcome.restored)
      ensures Alone(script)
              && GoodRestore(cfg, script, call.target, old(db), old(files), old(temps), old(world).archive) ==>
                && why.Nothing? && db == cfg.load(old(files)[script.resolved.value.id].content).value
                && StoredNew(call, script) && temps == old(temps) && !locked
    {
      Await(t, call, Locked, script.others(0));
      why := NotResolved(world);
      VisitedNow(cfg, firstDb, firstFiles, trace, from, world);
      var resolved := Resolve(t, call, script);
      if resolved.Got? {
        outcome, why := RestoreResolved(from, t, call, resolved.value, script);
      } else {
        outcome := Stop(from, t, call, Locked, script, why, resolved.Bare(), {});
      }
    }

    /** Every execution is a run of the machine that ends this call with `outcome`. A wrong confirmation or
        a taken lock changes nothing. Otherwise the answer is success, with the database loaded from the
        requested file, or that of an obstacle the call has met. On its own and with good answers the call
        loads the requested file and stores exactly one copy, of the database it overwrites. */
    method Restore(t: TaskId, target: Target, confirm: string, script: Script)
      returns (outcome: Outcome, ghost why: Obstacle)
      requires (Valid() <==> true) && Stands(t, Call.Restore(target, confirm), Begun)
      modifies this
      ensures (Valid() <==> true) && old(trace) <= trace
      ensures Stands(t, Call.Restore(target, confirm), Finished(outcome))
      ensures confirm != cfg.dbName ==> outcome.Failed? && outcome.error.FailedPrecondition? && Untouched()
      ensures confirm == cfg.dbName && old(locked) ==> outcome == Failed(BUSY) && Untouched()
      ensures confirm == cfg.dbName && !old(locked) ==>
                (Told(|old(trace)|, t, Call.Restore(target, confirm), script, why, outcome) <==> true)
      ensures outcome.Restored? ==> LoadedFrom(t, Call.Restore(target, confirm), outcome.restored)
      ensures confirm == cfg.dbName && !old(locked) && Alone(script)
              && GoodRestore(cfg, script, target, old(db), old(files), old(temps), old(world).archive) ==>
                && outcome == Restored(script.resolved.value, NewInfo(cfg, Call.Restore(target, confirm), script))
                && Some(db) == cfg.load(old(files)[script.resolved.value.id].content)
                && StoredNew(Call.Restore(target, confirm), script)
                && cfg.load(files[NewId(script)].content) == Some(old(db))
                && temps == old(temps) && !locked
    {
      var call := Call.Restore(target, confirm);
      why := Nothing;
      if confirm != cfg.dbName {
        LockFacts(cfg, firstDb, firstFiles, trace, world, t);
        Record(Act(t, Refuse));
        return Failed(FailedPrecondition("confirm_db_name")), why;
      }
      var ok := Lock(t, call);
      if !ok {
        return Failed(BUSY), why;
      }
      outcome, why := RestoreLocked(|old(trace)|, t, call, script);
    }

    // ---------- create_backup ----------

    method StartPruning(t: TaskId, ghost pc: Pc, info: BackupInfo)
      requires (Legal() <==> true) && Stands(t, Call.CreateBackup, pc) && cfg.retention.Some?
      requires pc.Uploading? && pc.job.RegularJob? && pc.created == Some(info)
      requires db == world.db && files == world.files && locked == world.lock.Some?
      requires temps == world.temps - {pc.tmp}
      modifies this
      ensures (Valid() <==> true) && old(trace) <= trace && Stands(t, Call.CreateBackup, Pc.Listing(info, [], 0))
      ensures db == old(db) && files == old(files) && temps == old(temps)
    {
      Record(Act(t, FinishUpload));
    }

    /** One page more: listing goes on, or the candidates are known. */
    method TakePage(t: TaskId, call: Call, info: BackupInfo, listed: seq<BackupInfo>, k: nat,
                    items: seq<BackupInfo>, more: bool)
      requires (Valid() <==> true) && Stands(t, call, Pc.Listing(info, listed, k)) && cfg.retention.Some?
      requires AllShown(cfg, files, items) && (more ==> k + 1 < MAX_RETENTION_PAGES)
      modifies this
      ensures (Valid() <==> true) && old(trace) <= trace
      ensures db == old(db) && files == old(files) && temps == old(temps)
      ensures Stands(t, call, if more then Pc.Listing(info, listed + items, k + 1)
                              else Deleting(info, RetentionCandidates(listed + items, cfg.retention.value)))
    {
      Record(Act(t, ListPage(items, more)));
    }

    /** Listing failed or had too many pages: nothing is deleted. */
    method SkipPruning(t: TaskId, call: Call, info: BackupInfo, listed: seq<BackupInfo>, k: nat)
      returns (outcome: Outcome)
      requires (Valid() <==> true) && Stands(t, call, Pc.Listing(info, listed, k))
      modifies this
      ensures (Valid() <==> true) && old(trace) <= trace && !locked
      ensures db == old(db) && files == old(files) && temps == old(temps)
      ensures outcome == BackedUp(info) && Stands(t, call, Finished(outcome))
    {
      outcome := BackedUp(info);
      Leave(t, call, Pc.Listing(info, listed, k), ListFails, {}, outcome);
      assert temps == old(temps);
    }

    method RemoveFirst(t: TaskId, call: Call, info: BackupInfo, todo: seq<BackupInfo>, removes: bool)
      requires (Valid() <==> true) && Stands(t, call, Deleting(info, todo)) && todo != []
      modifies this
      ensures (Valid() <==> true) && Stands(t, call, Deleting(info, todo)) && old(trace) <= trace && db == old(db)
      ensures files == if removes then old(files) - {todo[0].id} else old(files)
    {
      if removes {
        Record(Act(t, RemoveRemote));
        files := files - {todo[0].id};
      }
    }

    method NextCandidate(t: TaskId, call: Call, info: BackupInfo, todo: seq<BackupInfo>)
      requires (Valid() <==> true) && Stands(t, call, Deleting(info, todo)) && todo != []
      modifies this
      ensures (Valid() <==> true) && Stands(t, call, Deleting(info, todo[1..])) && old(trace) <= trace
      ensures db == old(db) && files == old(files)
    {
      Record(Act(t, NextDelete));
    }

    method FinishPruning(t: TaskId, call: Call, info: BackupInfo) returns (outcome: Outcome)
      requires (Valid() <==> true) && Stands(t, call, Deleting(info, []))
      modifies this
      ensures (Valid() <==> true) && old(trace) <= trace && db == old(db) && files == old(files) && !locked
      ensures outcome == BackedUp(info) && Stands(t, call, Finished(outcome))
    {
      outcome := BackedUp(info);
      Leave(t, call, Deleting(info, []), NextDelete, {}, outcome);
    }

    /** The answer of pruning: the stored backup, or a cancellation that the script names. */
    ghost predicate PruningTold(from: nat, t: TaskId, call: Call, info: BackupInfo, script: Script, why: Obstacle,
                                outcome: Outcome)
      reads this
    {
      if why.Nothing? then outcome == BackedUp(info)
      else why.PruningDropped? && (Told(from, t, call, script, why, outcome) <==> true)
    }

    /** The caller is cancelled at the k-th delete. */
    method DropPruning(ghost from: nat, t: TaskId, call: Call, info: BackupInfo, ghost todo: seq<BackupInfo>,
                       ghost k: nat, ghost script: Script)
      returns (outcome: Outcome, ghost why: Obstacle)
      requires (Valid() <==> true) && Stands(t, call, Deleting(info, todo)) && script.deleted(k).Dropped?
      modifies this
      ensures (Valid() <==> true) && old(trace) <= trace && Stands(t, call, Finished(outcome))
      ensures PruningTold(from, t, call, info, script, why, outcome) <==> true
      ensures why == PruningDropped(k) && files == old(files) && db == old(db)
    {
      why := PruningDropped(k);
      outcome := Stop(from, t, call, Deleting(info, todo), script, why, Dropped, {});
    }

    /** Each candidate is deleted once; its request may take effect although the call fails. */
    method DeleteCandidates(ghost from: nat, t: TaskId, call: Call, info: BackupInfo, todo: seq<BackupInfo>,
                            script: Script)
      returns (outcome: Outcome, ghost why: Obstacle)
      requires (Valid() <==> true) && Stands(t, call, Deleting(info, todo))
      modifies this
      ensures (Valid() <==> true) && old(trace) <= trace && Stands(t, call, Finished(outcome))
      ensures PruningTold(from, t, call, info, script, why, outcome)
      ensures DeletesReturn(script) ==> why.Nothing?
      ensures Alone(script) ==> db == old(db)
      ensures Alone(script) && DeletesReturn(script) ==> files == old(files) - Removed(todo, script.removes, |todo|)
    {
      var left, k := todo, 0;
      while left != []
        invariant k <= |todo| && left == todo[k..]
        invariant (Valid() <==> true) && old(trace) <= trace && Stands(t, call, Deleting(info, left))
        invariant Alone(script) ==> files == old(files) - Removed(todo, script.removes, k) && db == old(db)
        decreases |left|
      {
        DeleteNext(t, call, info, left, k, script);
        if script.deleted(k).Dropped? {
          outcome, why := DropPruning(from, t, call, info, left, k, script);
          return;
        }
        NextCandidate(t, call, info, left);
        RemovedNext(todo, script.removes, k);
        left, k := left[1..], k + 1;
      }
      why := Nothing;
      outcome := FinishPruning(t, call, info);
    }

    /** One delete request and its reply. */
    method DeleteNext(t: TaskId, call: Call, info: BackupInfo, left: seq<BackupInfo>, k: nat, script: Script)
      requires (Valid() <==> true) && Stands(t, call, Deleting(info, left)) && left != []
      modifies this
      ensures (Valid() <==> true) && old(trace) <= trace && Stands(t, call, Deleting(info, left))
      ensures Alone(script) ==>
                db == old(db) && files == if script.removes(k) then old(files) - {left[0].id} else old(files)
    {
      Await(t, call, Deleting(info, left), script.others(200 + 2 * k));
      RemoveFirst(t, call, info, left, script.removes(k));
      Await(t, call, Deleting(info, left), script.others(201 + 2 * k));
    }

    /** A page with more to come. */
    method TakeMorePage(t: TaskId, call: Call, info: BackupInfo, all: seq<BackupInfo>, i: nat, script: Script)
      requires (Valid() <==> true) && Stands(t, call, Pc.Listing(info, all, i)) && cfg.retention.Some?
      requires i + 1 < MAX_RETENTION_PAGES && GoodPage(cfg, files, script, i) && script.pages(i).value.1
      modifies this
      ensures (Valid() <==> true) && old(trace) <= trace && db == old(db) && files == old(files)
      ensures Stands(t, call, Pc.Listing(info, all + script.pages(i).value.0, i + 1))
      ensures PagesGoOn(cfg, files, script, i) ==> (PagesGoOn(cfg, files, script, i + 1) <==> true)
    {
      TakePage(t, call, info, all, i, script.pages(i).value.0, true);
    }

    /** The last page: the candidates are known. */
    method TakeLastPage(t: TaskId, call: Call, info: BackupInfo, all: seq<BackupInfo>, i: nat, script: Script)
      requires (Valid() <==> true) && Stands(t, call, Pc.Listing(info, all, i)) && cfg.retention.Some?
      requires i < MAX_RETENTION_PAGES && GoodPage(cfg, files, script, i) && !script.pages(i).value.1
      requires Alone(script) ==> (PagesGoOn(cfg, files, script, i) <==> true)
      modifies this
      ensures (Valid() <==> true) && old(trace) <= trace && db == old(db) && files == old(files)
      ensures Stands(t, call, Deleting(info, RetentionCandidates(all + script.pages(i).value.0, cfg.retention.value)))
      ensures Alone(script) ==> (OnlyListing(cfg, files, script, i) <==> true)
    {
      TakePage(t, call, info, all, i, script.pages(i).value.0, false);
      if Alone(script) {
        CompleteListing(cfg, files, script, i);
      }
    }

    /** One listing call. */
    method AskPage(t: TaskId, call: Call, info: BackupInfo, ghost all: seq<BackupInfo>, i: nat, script: Script)
      returns (page: Reply<(seq<BackupInfo>, bool)>)
      requires (Valid() <==> true) && Stands(t, call, Pc.Listing(info, all, i))
      modifies this
      ensures (Valid() <==> true) && old(trace) <= trace && Stands(t, call, Pc.Listing(info, all, i))
      ensures page.Got? ==> page == script.pages(i) && AllShown(cfg, files, page.value.0)
      ensures page.Dropped? ==> script.pages(i).Dropped?
      ensures Alone(script) ==> files == old(files) && db == old(db) && (page.Got? <==> GoodPage(cfg, files, script, i))
    {
      Await(t, call, Pc.Listing(info, all, i), script.others(10 + i));
      page := PageAnswer(cfg, files, script.pages(i));
    }

    /** The listing loop: it ends with the candidates, or it ends the call. `k` is the page it came to. */
    method ListPages(ghost from: nat, t: TaskId, call: Call, info: BackupInfo, script: Script)
      returns (listed: Option<seq<BackupInfo>>, outcome: Outcome, ghost why: Obstacle, ghost k: nat)
      requires (Valid() <==> true) && Stands(t, call, Pc.Listing(info, [], 0)) && cfg.retention.Some?
      modifies this
      ensures (Valid() <==> true) && old(trace) <= trace
      ensures Alone(script) ==> files == old(files) && db == old(db)
      ensures listed.Some? ==>
                && why.Nothing? && listed.value == AllPages(script, k + 1)
                && Stands(t, call, Deleting(info, RetentionCandidates(listed.value, cfg.retention.value)))
                && (Alone(script) ==> (OnlyListing(cfg, files, script, k) <==> true))
      ensures listed.None? ==>
                && Stands(t, call, Finished(outcome)) && PruningTold(from, t, call, info, script, why, outcome)
                && (Alone(script) ==> (NoListing(cfg, files, script) <==> true))
    {
      var i, all := 0, [];
      while true
        invariant (Valid() <==> true) && old(trace) <= trace
        invariant Stands(t, call, Pc.Listing(info, all, i)) && i < MAX_RETENTION_PAGES && all == AllPages(script, i)
        invariant Alone(script) ==>
                    files == old(files) && db == old(db) && (PagesGoOn(cfg, files, script, i) <==> true)
        decreases MAX_RETENTION_PAGES - i
      {
        var page := AskPage(t, call, info, all, i, script);
        k := i;
        if !page.Got? || (page.value.1 && i + 1 == MAX_RETENTION_PAGES) {
          outcome, why := GiveUpPruning(from, t, call, info, all, i, script, page.Dropped?);
          return None, outcome, why, k;
        }
        if !page.value.1 {
          TakeLastPage(t, call, info, all, i, script);
          return Some(all + page.value.0), BackedUp(info), Nothing, k;
        }
        TakeMorePage(t, call, info, all, i, script);
        i, all := i + 1, all + page.value.0;
      }
    }

    /** Best effort: whatever happens here, the backup is reported, unless the caller is cancelled. On its
        own it removes nothing when the listing does not come through, and otherwise the listed regular
        pg_dump backups of rank `keep` or more whose delete takes effect. */
    method PruneOldBackups(ghost from: nat, t: TaskId, call: Call, info: BackupInfo, script: Script)
      returns (outcome: Outcome, ghost why: Obstacle)
      requires (Valid() <==> true) && Stands(t, call, Pc.Listing(info, [], 0)) && cfg.retention.Some?
      modifies this
      ensures (Valid() <==> true) && old(trace) <= trace && Stands(t, call, Finished(outcome))
      ensures PruningTold(from, t, call, info, script, why, outcome)
      ensures Alone(script) ==> db == old(db) && (PrunedAlone(cfg, old(files), files, script, why) <==> true)
    {
      var listed; ghost var k;
      listed, outcome, why, k := ListPages(from, t, call, info, script);
      if listed.Some? {
        RemovedByRank(listed.value, cfg.retention.value, script.removes);
        outcome, why :=
          DeleteCandidates(from, t, call, info, RetentionCandidates(listed.value, cfg.retention.value), script);
      }
    }

    /** The listing did not come through. */
    method GiveUpPruning(ghost from: nat, t: TaskId, call: Call, info: BackupInfo, listed: seq<BackupInfo>, k: nat,
                         script: Script, dropped: bool)
      returns (outcome: Outcome, ghost why: Obstacle)
      requires (Valid() <==> true) && Stands(t, call, Pc.Listing(info, listed, k))
      requires dropped ==> script.pages(k).Dropped?
      requires Alone(script) ==>
                 && (PagesGoOn(cfg, files, script, k) <==> true)
                 && (!GoodPage(cfg, files, script, k) || (script.pages(k).value.1 && k + 1 == MAX_RETENTION_PAGES))
      modifies this
      ensures (Valid() <==> true) && old(trace) <= trace && Stands(t, call, Finished(outcome))
      ensures PruningTold(from, t, call, info, script, why, outcome)
      ensures files == old(files) && db == old(db)
      ensures Alone(script) ==> (NoListing(cfg, files, script) <==> true)
    {
      if Alone(script) {
        NoCompleteListing(cfg, files, script, k);
      }
      if dropped {
        why := PruningDropped(k);
        outcome := Stop(from, t, call, Pc.Listing(info, listed, k), script, why, Dropped, {});
      } else {
        why := Nothing;
        outcome := SkipPruning(t, call, info, listed, k);
      }
    }

    /** What a backup on its own and with good answers does to the folder: the new file is stored and then
        the folder is pruned. */
    twostate predicate BackedUpAlone(script: Script, why: Obstacle)
      reads this
    {
      && HasDump(script) && db == old(db)
      && PrunedAlone(cfg, old(files)[NewId(script) := NewFile(cfg, Call.CreateBackup, script)], files, script, why)
    }

    /** The backup is stored; the folder is pruned if there is a retention count. */
    method FinishBackup(ghost from: nat, t: TaskId, ghost pc: Pc, info: BackupInfo, script: Script)
      returns (outcome: Outcome, ghost why: Obstacle)
      requires (Legal() <==> true) && Stands(t, Call.CreateBackup, pc) && HasDump(script)
      requires pc.Uploading? && pc.job.RegularJob? && pc.created == Some(info)
      requires info == NewInfo(cfg, Call.CreateBackup, script)
      requires db == world.db && files == world.files && locked == world.lock.Some? && temps == world.temps - {pc.tmp}
      modifies this
      ensures (Valid() <==> true) && old(trace) <= trace && Stands(t, Call.CreateBackup, Finished(outcome))
      ensures Told(from, t, Call.CreateBackup, script, why, outcome) <==> true
      ensures why.Nothing? || why.PruningDropped?
      ensures Alone(script) ==> db == old(db) && (PrunedAlone(cfg, old(files), files, script, why) <==> true)
    {
      if cfg.retention.None? {
        outcome, why := BackedUp(info), Nothing;
        Leave(t, Call.CreateBackup, pc, FinishUpload, {}, outcome);
      } else {
        StartPruning(t, pc, info);
        outcome, why := PruneOldBackups(from, t, Call.CreateBackup, info, script);
      }
    }

    /** A call that met an obstacle before its file was there has created none. */
    lemma CreatedNothing(t: TaskId, call: Call, pc: Pc)
      requires (Legal() <==> true) && Stands(t, call, pc)
      requires pc.Locked? || pc.Downloaded? || pc.Dumping? || (pc.Uploading? && pc.created.None?)
      ensures forall id :: id in world.owner ==> world.owner[id] != t
    {
      OwnsNothing(cfg, firstDb, firstFiles, trace, world, t);
    }

    /** With the lock in hand. */
    method CreateLocked(ghost from: nat, t: TaskId, script: Script) returns (outcome: Outcome, ghost why: Obstacle)
      requires (Valid() <==> true) && Stands(t, Call.CreateBackup, Locked) && from <= |trace|
      modifies this
      ensures (Valid() <==> true) && old(trace) <= trace && Stands(t, Call.CreateBackup, Finished(outcome))
      ensures Told(from, t, Call.CreateBackup, script, why, outcome) <==> true
      ensures script.uploaded.Got? && Owns(t) ==> why.Nothing? || why.PruningDropped?
      ensures Alone(script) && GoodDump(cfg, script, old(db), old(temps), old(world).archive) ==>
                (BackedUpAlone(script, why) <==> true)
    {
      var r; ghost var pc;
      r, pc, why := DumpAndUpload(from, t, Call.CreateBackup, Locked, RegularJob, script);
      if r.Got? {
        outcome, why := FinishBackup(from, t, pc, r.value, script);
      } else {
        if script.uploaded.Got? {
          CreatedNothing(t, Call.CreateBackup, pc);
        }
        outcome := Stop(from, t, Call.CreateBackup, pc, script, why, r.Bare(), {});
      }
    }

    /** Every execution is a run of the machine that ends this call with `outcome`. A taken lock changes
        nothing. Otherwise the answer is the new backup, or that of an obstacle the call has met; once its
        file is stored and the reply has come, that can only be a cancellation during pruning. On its own
        and with good answers the call stores exactly the new file and prunes. */
    method CreateBackup(t: TaskId, script: Script) returns (outcome: Outcome, ghost why: Obstacle)
      requires (Valid() <==> true) && Stands(t, Call.CreateBackup, Begun)
      modifies this
      ensures (Valid() <==> true) && old(trace) <= trace && Stands(t, Call.CreateBackup, Finished(outcome))
      ensures old(locked) ==> outcome == Failed(BUSY) && Untouched()
      ensures !old(locked) ==> (Told(|old(trace)|, t, Call.CreateBackup, script, why, outcome) <==> true)
      ensures !old(locked) && script.uploaded.Got? && Owns(t) ==>
                || outcome == Cancelled
                || (HasDump(script) && outcome == BackedUp(NewInfo(cfg, Call.CreateBackup, script)))
      ensures !old(locked) && Alone(script) && GoodDump(cfg, script, old(db), old(temps), old(world).archive) ==>
                BackedUpAlone(script, why)
    {
      why := Nothing;
      var ok := Lock(t, Call.CreateBackup);
      if !ok {
        return Failed(BUSY), why;
      }
      outcome, why := CreateLocked(|old(trace)|, t, script);
    }
  }
}
