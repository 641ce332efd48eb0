/** What a run tells about itself: when each restore looked at the database, when it overwrote it and
    who wrote in between, and which file each restore was asked for. */
module ProtocolHistory {
  import opened Core
  import opened Mapping
  import opened Query
  import opened Retention
  import opened Protocol
  import opened ProtocolInvariant
  import opened ProtocolSteps
  import opened ProtocolSafety

  // ---------- Parts of a run ----------

  lemma {:induction false} RunAppend(cfg: Config, s: State, events: seq<Event>, s': State, e: Event)
    requires Run(cfg, s, events, s') && Enabled(cfg, s', e)
    ensures Run(cfg, s, events + [e], Apply(cfg, s', e))
    decreases |events|
  {
    if events == [] {
      assert ([] + [e])[1..] == [];
    } else {
      assert (events + [e])[1..] == events[1..] + [e];
      RunAppend(cfg, Apply(cfg, s, events[0]), events[1..], s', e);
    }
  }

  /** The state before event `k` of a run. */
  lemma {:induction false} RunPrefix(cfg: Config, s: State, events: seq<Event>, s': State, k: nat) returns (mid: State)
    requires Run(cfg, s, events, s') && k < |events|
    ensures Run(cfg, s, events[..k], mid) && Enabled(cfg, mid, events[k])
    ensures k == |events| - 1 ==> s' == Apply(cfg, mid, events[k])
    decreases |events|
  {
    if k == 0 {
      mid := s;
    } else {
      mid := RunPrefix(cfg, Apply(cfg, s, events[0]), events[1..], s', k - 1);
      assert events[..k][1..] == events[1..][..k - 1];
    }
  }

  /** A run without its last event. */
  lemma LastStep(cfg: Config, db: Db, files: map<string, Stored>, events: seq<Event>, s: State) returns (mid: State)
    requires (Reachable(cfg, db, files, events, s) <==> true) && events != []
    ensures Reachable(cfg, db, files, events[..|events| - 1], mid) <==> true
    ensures Enabled(cfg, mid, events[|events| - 1]) && s == Apply(cfg, mid, events[|events| - 1])
  {
    mid := RunPrefix(cfg, Init(db, files), events, s, |events| - 1);
  }

  // ---------- Progress of one call ----------

  /** How far a call has come. */
  function Stage(pc: Pc): nat {
    match pc
    case Begun => 0
    case Locked => 1
    case Resolved(_) => 2
    case Downloading(_, _) => 3
    case Downloaded(_, _) => 4
    case Dumping(_, _, seen) => if seen then 6 else 5
    case Uploading(_, _, _, _) => 7
    case Listing(_, _, _) => 8
    case Deleting(_, _) => 8
    case Restoring(_, _, _, committed) => if committed then 9 else 8
    case Finished(_) => 10
  }

  /** The call has looked at the database and still holds the lock. */
  predicate Marked(pc: Pc) {
    (pc.Dumping? && pc.seen) || pc.Uploading? || pc.Restoring?
  }

  /** The last event in which a marked call looked at the database or overwrote it. */
  function Mark(pc: Pc): Action {
    if pc.Restoring? && pc.committed then Commit else TakeSnapshot
  }

  /** The file a restore has chosen, as long as its position shows it. */
  function Chosen(pc: Pc): Option<BackupInfo> {
    match pc
    case Resolved(restored) => Some(restored)
    case Downloading(restored, _) => Some(restored)
    case Downloaded(restored, _) => Some(restored)
    case Dumping(job, _, _) => JobSource(job)
    case Uploading(job, _, _, _) => JobSource(job)
    case Restoring(restored, _, _, _) => Some(restored)
    case Finished(Restored(restored, _)) => Some(restored)
    case _ => None
  }

  function JobSource(job: Job): Option<BackupInfo> {
    if job.PreRestoreJob? then Some(job.restored) else None
  }

  /** A call has gone on from `pc` to `next` and carries the same chosen file or none. */
  predicate GoesOn(pc: Pc, next: Pc) {
    Stage(pc) <= Stage(next) && Chosen(next) in {None, Chosen(pc)}
  }

  predicate KeepsMark(pc: Pc, next: Pc) {
    Marked(next) ==> Marked(pc) && Mark(next) == Mark(pc)
  }

  /** `next` is where task `t` stands. */
  predicate StandsAt(s: State, t: TaskId, next: Pc) {
    t in s.tasks && s.tasks[t].pc == next
  }

  lemma EndedStands(s: State, t: TaskId, outcome: Outcome)
    requires t in s.tasks
    ensures StandsAt(Ended(s, t, outcome), t, Finished(outcome)) <==> true
  {
  }

  lemma ToRestoringStands(cfg: Config, s: State, t: TaskId) returns (next: Pc)
    requires Uploaded(s, t) && s.tasks[t].pc.job.PreRestoreJob?
    ensures StandsAt(ApplyFinishUpload(cfg, s, t), t, next) <==> true
    ensures GoesOn(s.tasks[t].pc, next) && KeepsMark(s.tasks[t].pc, next)
  {
    var pc := s.tasks[t].pc;
    next := Restoring(pc.job.restored, pc.created.value, pc.job.dst, false);
  }

  lemma FinishUploadStands(cfg: Config, s: State, t: TaskId) returns (next: Pc)
    requires Uploaded(s, t)
    ensures StandsAt(ApplyFinishUpload(cfg, s, t), t, next) <==> true
    ensures GoesOn(s.tasks[t].pc, next) && KeepsMark(s.tasks[t].pc, next)
  {
    var info := s.tasks[t].pc.created.value;
    if s.tasks[t].pc.job.PreRestoreJob? {
      next := ToRestoringStands(cfg, s, t);
    } else if cfg.retention.None? {
      EndedStands(s, t, BackedUp(info));
      next := Finished(BackedUp(info));
    } else {
      next := Pc.Listing(info, [], 0);
    }
  }

  lemma ListPageStands(cfg: Config, s: State, t: TaskId, items: seq<BackupInfo>, more: bool) returns (next: Pc)
    requires t in s.tasks && s.tasks[t].pc.Listing? && cfg.retention.Some?
    ensures StandsAt(ApplyListPage(cfg, s, t, items, more), t, next) <==> true
    ensures GoesOn(s.tasks[t].pc, next) && KeepsMark(s.tasks[t].pc, next)
  {
    var pc := s.tasks[t].pc;
    if more && pc.pages + 1 >= MAX_RETENTION_PAGES {
      EndedStands(s, t, BackedUp(pc.info));
      next := Finished(BackedUp(pc.info));
    } else if more {
      next := Pc.Listing(pc.info, pc.listed + items, pc.pages + 1);
    } else {
      next := Deleting(pc.info, RetentionCandidates(pc.listed + items, cfg.retention.value));
    }
  }

  lemma NextDeleteStands(s: State, t: TaskId) returns (next: Pc)
    requires t in s.tasks && s.tasks[t].pc.Deleting?
    ensures StandsAt(ApplyNextDelete(s, t), t, next) <==> true
    ensures GoesOn(s.tasks[t].pc, next) && KeepsMark(s.tasks[t].pc, next)
  {
    var pc := s.tasks[t].pc;
    if pc.todo == [] {
      EndedStands(s, t, BackedUp(pc.info));
      next := Finished(BackedUp(pc.info));
    } else {
      next := Deleting(pc.info, pc.todo[1..]);
    }
  }

  /** Actions that always end the call. */
  predicate Ending(a: Action) {
    a.Refuse? || a.FindBusy? || a.RejectFormat? || a.ListFails? || a.FinishRestore? || a.Fail? || a.Cancel?
  }

  lemma EndingStands(cfg: Config, s: State, t: TaskId, a: Action) returns (next: Pc)
    requires CanAct(cfg, s, t, a) && Ending(a)
    ensures StandsAt(AfterAct(cfg, s, t, a), t, next) <==> true
    ensures GoesOn(s.tasks[t].pc, next) && KeepsMark(s.tasks[t].pc, next)
  {
    var outcome :=
      match a
      case Refuse => Failed(FailedPrecondition("confirm_db_name"))
      case FindBusy => Failed(Busy("another backup or restore is in progress"))
      case RejectFormat => Failed(FailedPrecondition("format"))
      case ListFails => BackedUp(s.tasks[t].pc.info)
      case FinishRestore => Restored(s.tasks[t].pc.restored, s.tasks[t].pc.preRestore)
      case Fail(error) => Failed(error)
      case _ => Cancelled;
    next := Finished(outcome);
    EndedStands(s, t, outcome);
  }

  lemma DumpStands(cfg: Config, s: State, t: TaskId, a: Action) returns (next: Pc)
    requires CanAct(cfg, s, t, a) && (a.OpenTemp? || a.FinishDump? || a.StoreUpload?)
    ensures StandsAt(AfterAct(cfg, s, t, a), t, next) <==> true
    ensures GoesOn(s.tasks[t].pc, next) && KeepsMark(s.tasks[t].pc, next)
  {
    next := AfterAct(cfg, s, t, a).tasks[t].pc;
  }

  lemma ShortStands(cfg: Config, s: State, t: TaskId, a: Action) returns (next: Pc)
    requires CanAct(cfg, s, t, a)
    requires a.Acquire? || a.Resolve? || a.FinishDownload? || a.TakeSnapshot? || a.RemoveRemote? || a.Commit?
    ensures StandsAt(AfterAct(cfg, s, t, a), t, next) <==> true
    ensures Stage(s.tasks[t].pc) <= Stage(next)
    ensures !a.Resolve? ==> GoesOn(s.tasks[t].pc, next)
    ensures Plain(a) ==> KeepsMark(s.tasks[t].pc, next)
  {
    next := AfterAct(cfg, s, t, a).tasks[t].pc;
  }

  /** Where an action leads: onward, with the same chosen file, and marked only if it was before. */
  lemma ActionStands(cfg: Config, s: State, t: TaskId, a: Action) returns (next: Pc)
    requires CanAct(cfg, s, t, a)
    ensures StandsAt(AfterAct(cfg, s, t, a), t, next) <==> true
    ensures Stage(s.tasks[t].pc) <= Stage(next)
    ensures !a.Resolve? ==> GoesOn(s.tasks[t].pc, next)
    ensures Plain(a) ==> KeepsMark(s.tasks[t].pc, next)
  {
    if Ending(a) {
      next := EndingStands(cfg, s, t, a);
    } else if a.OpenTemp? || a.FinishDump? || a.StoreUpload? {
      next := DumpStands(cfg, s, t, a);
    } else if a.FinishUpload? {
      next := FinishUploadStands(cfg, s, t);
    } else if a.ListPage? {
      next := ListPageStands(cfg, s, t, a.items, a.more);
    } else if a.NextDelete? {
      next := NextDeleteStands(s, t);
    } else {
      next := ShortStands(cfg, s, t, a);
    }
  }

  /** One step of anybody: task `t` does not go back. */
  lemma StageGrows(cfg: Config, s: State, e: Event, t: TaskId)
    requires (Enabled(cfg, s, e) <==> true) && t in s.tasks
    ensures t in Apply(cfg, s, e).tasks && Stage(s.tasks[t].pc) <= Stage(Apply(cfg, s, e).tasks[t].pc)
  {
    if OfOthers(e, t) {
      OthersKeepTask(cfg, s, e, t);
    } else {
      var next := ActionStands(cfg, s, t, e.action);
    }
  }

  // ---------- The requested file ----------

  /** `info` answers the target of a restore: the file with the requested id, in the folder, or a file
      that the latest query selects. */
  predicate Answers(cfg: Config, s: State, call: Call, info: BackupInfo) {
    && call.Restore? && info.id in s.archive && MapsTo(s.archive[info.id], info)
    && match call.target
       case ById(id) => info.id == id && IsInFolder(s.archive[id].meta, cfg.folder)
       case Latest => InLatest(s.archive[info.id].meta, cfg.folder)
  }

  lemma ResolvedAnswers(cfg: Config, s: State, t: TaskId, info: BackupInfo)
    requires (ArchiveInv(s) <==> true) && CanAct(cfg, s, t, Resolve(info))
    ensures Answers(cfg, AfterAct(cfg, s, t, Resolve(info)), s.tasks[t].call, info) <==> true
  {
  }

  lemma ActionRecordGrows(cfg: Config, s: State, t: TaskId, a: Action)
    requires CanAct(cfg, s, t, a)
    ensures (RecordGrows(s, AfterAct(cfg, s, t, a)) <==> true) && (SameCall(s, AfterAct(cfg, s, t, a), t) <==> true)
    ensures AfterAct(cfg, s, t, a).tasks.Keys == s.tasks.Keys
  {
    if Plain(a) {
      ActionLeaves(cfg, s, t, a);
    }
  }

  lemma ChangeRecordGrows(s: State, c: Change)
    requires CanChange(s, c)
    ensures RecordGrows(s, AfterChange(s, c)) <==> true
  {
  }

  lemma ArchiveGrows(cfg: Config, s: State, e: Event)
    requires Enabled(cfg, s, e) <==> true
    ensures RecordGrows(s, Apply(cfg, s, e)) <==> true
  {
    match e
    case Act(t, a) => ActionRecordGrows(cfg, s, t, a);
    case Around(c) => ChangeRecordGrows(s, c);
  }

  predicate SameCall(s: State, s': State, t: TaskId) {
    t in s.tasks && t in s'.tasks && s'.tasks[t].call == s.tasks[t].call
  }

  lemma ChangeNewTask(s: State, c: Change, t: TaskId)
    requires CanChange(s, c) && t !in s.tasks
    ensures t in AfterChange(s, c).tasks ==> AfterChange(s, c).tasks[t].pc.Begun?
  {
  }

  /** A call that appears by a step is at its beginning. */
  lemma NewTaskIsBegun(cfg: Config, s: State, e: Event, t: TaskId)
    requires (Enabled(cfg, s, e) <==> true) && t !in s.tasks
    ensures t in Apply(cfg, s, e).tasks ==> Apply(cfg, s, e).tasks[t].pc.Begun?
  {
    match e
    case Act(u, a) => ActionRecordGrows(cfg, s, u, a);
    case Around(c) => ChangeNewTask(s, c, t);
  }

  /** The claim about one call. */
  predicate TargetClaim(cfg: Config, s: State, t: TaskId) {
    t in s.tasks && Chosen(s.tasks[t].pc).Some? ==> Answers(cfg, s, s.tasks[t].call, Chosen(s.tasks[t].pc).value)
  }

  lemma AnswersStay(cfg: Config, s: State, s': State, call: Call, info: BackupInfo)
    requires Answers(cfg, s, call, info) && RecordGrows(s, s')
    ensures Answers(cfg, s', call, info) <==> true
  {
  }

  lemma TargetOfOthers(cfg: Config, s: State, e: Event, t: TaskId)
    requires (TargetClaim(cfg, s, t) <==> true) && (Enabled(cfg, s, e) <==> true) && OfOthers(e, t)
    ensures TargetClaim(cfg, Apply(cfg, s, e), t) <==> true
  {
    ArchiveGrows(cfg, s, e);
    if t in s.tasks {
      OthersKeepTask(cfg, s, e, t);
      if Chosen(s.tasks[t].pc).Some? {
        AnswersStay(cfg, s, Apply(cfg, s, e), s.tasks[t].call, Chosen(s.tasks[t].pc).value);
      }
    } else {
      NewTaskIsBegun(cfg, s, e, t);
    }
  }

  /** Finishing a restore keeps what it has chosen. */
  lemma TargetOfOwn(cfg: Config, s: State, t: TaskId, a: Action)
    requires (TargetClaim(cfg, s, t) <==> true) && (CanAct(cfg, s, t, a) <==> true) && (ArchiveInv(s) <==> true)
    ensures TargetClaim(cfg, AfterAct(cfg, s, t, a), t) <==> true
  {
    ActionRecordGrows(cfg, s, t, a);
    if a.Resolve? {
      ResolvedAnswers(cfg, s, t, a.info);
    } else {
      var next := ActionStands(cfg, s, t, a);
      if Chosen(s.tasks[t].pc).Some? {
        AnswersStay(cfg, s, AfterAct(cfg, s, t, a), s.tasks[t].call, Chosen(s.tasks[t].pc).value);
      }
    }
  }

  lemma {:induction false} TargetHeld(cfg: Config, db: Db, files: map<string, Stored>, events: seq<Event>, s: State,
                                      t: TaskId)
    requires Reachable(cfg, db, files, events, s) <==> true
    ensures TargetClaim(cfg, s, t) <==> true
    decreases |events|
  {
    if events != [] {
      var mid := LastStep(cfg, db, files, events, s);
      var e := events[|events| - 1];
      TargetHeld(cfg, db, files, events[..|events| - 1], mid, t);
      if OfOthers(e, t) {
        TargetOfOthers(cfg, mid, e, t);
      } else {
        ReachableArchive(cfg, db, files, events[..|events| - 1], mid);
        TargetOfOwn(cfg, mid, t, e.action);
      }
    }
  }

  lemma ReachableArchive(cfg: Config, db: Db, files: map<string, Stored>, events: seq<Event>, s: State)
    requires Reachable(cfg, db, files, events, s) <==> true
    ensures (ArchiveInv(s) <==> true) && (LockInv(s) <==> true)
  {
    ReachableInv(cfg, db, files, events, s);
  }

  /** What a restore works on is what it was asked for, in every run: the file with the requested id, or
      for "latest" a regular backup that the latest query selects. */
  lemma RestoresWhatWasAsked(cfg: Config, db: Db, files: map<string, Stored>, events: seq<Event>, s: State, t: TaskId)
    requires Reachable(cfg, db, files, events, s) && t in s.tasks && Chosen(s.tasks[t].pc).Some?
    ensures Answers(cfg, s, s.tasks[t].call, Chosen(s.tasks[t].pc).value)
    ensures s.tasks[t].call.target.Latest? ==> Chosen(s.tasks[t].pc).value.kind == Regular
  {
    TargetHeld(cfg, db, files, events, s, t);
    QueriesAgreeWithMapping(cfg.folder, s.archive[Chosen(s.tasks[t].pc).value.id].meta);
  }
}
