/** The window of a restore: from the moment its dump looked at the database to the moment it overwrote
    it. Read off the events of a run, the window says exactly which overwritten databases are kept. */
module ProtocolWindow {
  import opened Core
  import opened Mapping
  import opened Protocol
  import opened ProtocolInvariant
  import opened ProtocolSteps
  import opened ProtocolSafety
  import opened ProtocolHistory

  // ---------- Marks ----------

  /** How far a call has come by the events that mark its window. */
  function MarkStage(a: Action): nat {
    if a.Commit? then 9 else 6
  }

  predicate IsMark(a: Action) {
    a.TakeSnapshot? || a.Commit?
  }

  lemma MarkAdvances(cfg: Config, s: State, t: TaskId, a: Action)
    requires CanAct(cfg, s, t, a) && IsMark(a)
    ensures Stage(s.tasks[t].pc) < MarkStage(a)
    ensures t in AfterAct(cfg, s, t, a).tasks && Stage(AfterAct(cfg, s, t, a).tasks[t].pc) == MarkStage(a)
  {
  }

  /** A call that was marked stays past that mark. */
  lemma {:induction false} MarkStays(cfg: Config, db: Db, files: map<string, Stored>, events: seq<Event>, s: State,
                                     t: TaskId, a: Action, k: nat)
    requires (Reachable(cfg, db, files, events, s) <==> true) && IsMark(a) && k < |events| && events[k] == Act(t, a)
    ensures t in s.tasks && Stage(s.tasks[t].pc) >= MarkStage(a)
    decreases |events|
  {
    var last := |events| - 1;
    var mid := LastStep(cfg, db, files, events, s);
    if k == last {
      MarkAdvances(cfg, mid, t, a);
    } else {
      MarkStays(cfg, db, files, events[..last], mid, t, a, k);
      StageGrows(cfg, mid, events[last], t);
    }
  }

  /** Each call looks at the database at most once and overwrites it at most once. */
  lemma MarkOnce(cfg: Config, db: Db, files: map<string, Stored>, events: seq<Event>, s: State,
                 t: TaskId, a: Action, j: nat, k: nat)
    requires (Reachable(cfg, db, files, events, s) <==> true) && IsMark(a) && j < k < |events|
    requires events[k] == Act(t, a)
    ensures events[j] != Act(t, a)
  {
    var mid := RunPrefix(cfg, Init(db, files), events, s, k);
    MarkAdvances(cfg, mid, t, a);
    if events[j] == Act(t, a) {
      assert events[..k][j] == Act(t, a);
      MarkStays(cfg, db, files, events[..k], mid, t, a, j);
      assert false;
    }
  }

  // ---------- Writes ----------

  predicate IsWrite(e: Event) {
    e.Around? && e.change.WriteDb?
  }

  /** What another program wrote last. */
  function LastWrite(events: seq<Event>): Option<Db> {
    if events == [] then None
    else if IsWrite(events[|events| - 1]) then Some(events[|events| - 1].change.db)
    else LastWrite(events[..|events| - 1])
  }

  /** The database after a window that began with `base` and in which only other programs write. */
  function AfterWrites(window: seq<Event>, base: Db): Db {
    if LastWrite(window).Some? then LastWrite(window).value else base
  }

  lemma {:induction false} NoWrites(events: seq<Event>)
    requires forall k :: 0 <= k < |events| ==> !IsWrite(events[k])
    ensures LastWrite(events) == None
  {
    if events != [] {
      NoWrites(events[..|events| - 1]);
    }
  }

  lemma {:induction false} LastWriteExists(events: seq<Event>)
    ensures LastWrite(events).Some? <==> exists k :: 0 <= k < |events| && IsWrite(events[k])
  {
    if events != [] {
      var last := |events| - 1;
      LastWriteExists(events[..last]);
      if k :| 0 <= k < |events| && IsWrite(events[k]) {
        assert k < last ==> IsWrite(events[..last][k]);
      }
    }
  }

  lemma LastWriteNext(window: seq<Event>, e: Event)
    ensures LastWrite(window + [e]) == if IsWrite(e) then Some(e.change.db) else LastWrite(window)
  {
    assert (window + [e])[..|window|] == window;
  }

  /** The state shows the writes of the window. */
  predicate Shows(s: State, window: seq<Event>) {
    && (s.touched <==> LastWrite(window).Some?)
    && (LastWrite(window).Some? ==> s.db == LastWrite(window).value)
  }

  /** One event inside a window. */
  predicate Passes(s: State, s': State, e: Event) {
    if IsWrite(e) then s'.touched && s'.db == e.change.db else s'.touched == s.touched && s'.db == s.db
  }

  lemma ShowsNext(s: State, s': State, window: seq<Event>, e: Event)
    requires Shows(s, window) && Passes(s, s', e)
    ensures Shows(s', window + [e]) <==> true
  {
    LastWriteNext(window, e);
  }

  lemma OwnPasses(cfg: Config, s: State, t: TaskId, a: Action)
    requires CanAct(cfg, s, t, a) && !IsMark(a)
    requires t in AfterAct(cfg, s, t, a).tasks && Marked(AfterAct(cfg, s, t, a).tasks[t].pc)
    ensures Passes(s, AfterAct(cfg, s, t, a), Act(t, a)) <==> true
    ensures KeepsMark(s.tasks[t].pc, AfterAct(cfg, s, t, a).tasks[t].pc)
  {
    var next := ActionStands(cfg, s, t, a);
    if Plain(a) {
      ActionLeaves(cfg, s, t, a);
    }
  }

  /** While `h` holds the lock nobody else looks at the database or overwrites it. */
  lemma OtherPasses(cfg: Config, s: State, u: TaskId, a: Action, h: TaskId)
    requires (LockInv(s) <==> true) && CanAct(cfg, s, u, a) && u != h && h in s.tasks && Holding(s.tasks[h].pc)
    ensures Passes(s, AfterAct(cfg, s, u, a), Act(u, a)) <==> true
  {
    assert !Holding(s.tasks[u].pc);
    assert !IsMark(a);
    if Plain(a) {
      ActionLeaves(cfg, s, u, a);
    }
  }

  lemma ChangePasses(s: State, c: Change)
    requires CanChange(s, c)
    ensures Passes(s, AfterChange(s, c), Around(c)) <==> true
  {
  }

  /** The window of the lock holder begins at event `j`. */
  predicate WindowAt(events: seq<Event>, s: State, h: TaskId, j: nat) {
    && j < |events| && h in s.tasks && Marked(s.tasks[h].pc) && events[j] == Act(h, Mark(s.tasks[h].pc))
    && Shows(s, events[j..])
  }

  lemma WindowOpens(cfg: Config, s: State, h: TaskId, a: Action, before: seq<Event>)
    requires CanAct(cfg, s, h, a) && IsMark(a)
    ensures WindowAt(before + [Act(h, a)], AfterAct(cfg, s, h, a), h, |before|) <==> true
  {
    assert (before + [Act(h, a)])[|before|..] == [] + [Act(h, a)];
    LastWriteNext([], Act(h, a));
  }

  lemma WindowGrows(events: seq<Event>, s: State, s': State, h: TaskId, j: nat, e: Event)
    requires WindowAt(events, s, h, j) && Passes(s, s', e)
    requires h in s'.tasks && Marked(s'.tasks[h].pc) && Mark(s'.tasks[h].pc) == Mark(s.tasks[h].pc)
    ensures WindowAt(events + [e], s', h, j) <==> true
  {
    assert (events + [e])[j..] == events[j..] + [e];
    ShowsNext(s, s', events[j..], e);
  }

  /** A step that does not mark `h` finds it marked and passes. */
  lemma StillMarked(cfg: Config, s: State, e: Event, h: TaskId)
    requires (LockInv(s) <==> true) && (Enabled(cfg, s, e) <==> true)
    requires h in Apply(cfg, s, e).tasks && Marked(Apply(cfg, s, e).tasks[h].pc)
    requires e.Act? && e.t == h ==> !IsMark(e.action)
    ensures h in s.tasks && KeepsMark(s.tasks[h].pc, Apply(cfg, s, e).tasks[h].pc)
    ensures Passes(s, Apply(cfg, s, e), e) <==> true
  {
    if h !in s.tasks {
      NewTaskIsBegun(cfg, s, e, h);
      assert false;
    }
    if !OfOthers(e, h) {
      OwnPasses(cfg, s, h, e.action);
    } else {
      OthersKeepTask(cfg, s, e, h);
      match e
      case Act(u, a) => OtherPasses(cfg, s, u, a, h);
      case Around(c) => ChangePasses(s, c);
    }
  }

  /** Every marked call knows its window: it began with the call's own mark, and the state shows
      exactly what others have written since. */
  lemma {:induction false} HolderWindow(cfg: Config, db: Db, files: map<string, Stored>, events: seq<Event>, s: State,
                                        h: TaskId) returns (j: nat)
    requires (Reachable(cfg, db, files, events, s) <==> true) && h in s.tasks && Marked(s.tasks[h].pc)
    ensures WindowAt(events, s, h, j) <==> true
    decreases |events|
  {
    var last := |events| - 1;
    var mid := LastStep(cfg, db, files, events, s);
    var e := events[last];
    assert events == events[..last] + [e];
    if e.Act? && e.t == h && IsMark(e.action) {
      WindowOpens(cfg, mid, h, e.action, events[..last]);
      j := last;
    } else {
      ReachableArchive(cfg, db, files, events[..last], mid);
      StillMarked(cfg, mid, e, h);
      j := HolderWindow(cfg, db, files, events[..last], mid, h);
      WindowGrows(events[..last], mid, s, h, j, e);
    }
  }

  // ---------- What the dump saw and what the commit overwrote ----------

  predicate SameSnapshot(s: State, s': State, t: TaskId) {
    t in s.snapshots && t in s'.snapshots && s'.snapshots[t] == s.snapshots[t]
  }

  lemma ActionKeepsSnapshot(cfg: Config, s: State, u: TaskId, a: Action, t: TaskId)
    requires CanAct(cfg, s, u, a) && t in s.snapshots && (u == t ==> !a.TakeSnapshot?)
    ensures SameSnapshot(s, AfterAct(cfg, s, u, a), t) <==> true
  {
    if Plain(a) {
      ActionLeaves(cfg, s, u, a);
    }
  }

  lemma ChangeKeepsSnapshot(s: State, c: Change, t: TaskId)
    requires CanChange(s, c) && t in s.snapshots
    ensures SameSnapshot(s, AfterChange(s, c), t) <==> true
  {
  }

  lemma SnapshotStays(cfg: Config, s: State, e: Event, t: TaskId)
    requires (Enabled(cfg, s, e) <==> true) && t in s.snapshots && e != Act(t, TakeSnapshot)
    ensures SameSnapshot(s, Apply(cfg, s, e), t) <==> true
  {
    match e
    case Act(u, a) => ActionKeepsSnapshot(cfg, s, u, a, t);
    case Around(c) => ChangeKeepsSnapshot(s, c, t);
  }

  /** What is recorded as seen is the database in the state before the dump looked at it. */
  lemma {:induction false} SnapshotIsDb(cfg: Config, db: Db, files: map<string, Stored>, events: seq<Event>, s: State,
                                        t: TaskId, j: nat) returns (seen: State)
    requires (Reachable(cfg, db, files, events, s) <==> true) && j < |events| && events[j] == Act(t, TakeSnapshot)
    ensures Reachable(cfg, db, files, events[..j], seen) <==> true
    ensures t in s.snapshots && s.snapshots[t] == seen.db
    decreases |events|
  {
    var last := |events| - 1;
    var mid := LastStep(cfg, db, files, events, s);
    if j == last {
      seen := mid;
    } else {
      seen := SnapshotIsDb(cfg, db, files, events[..last], mid, t, j);
      assert events[..last][..j] == events[..j];
      if events[last] == Act(t, TakeSnapshot) {
        MarkOnce(cfg, db, files, events, s, t, TakeSnapshot, j, last);
      }
      SnapshotStays(cfg, mid, events[last], t);
    }
  }

  /** Overwriting `o` happened in the window from event `j` to event `l`. */
  predicate OverwrittenIn(events: seq<Event>, s: State, o: Overwrite, j: nat, l: nat) {
    && j < l < |events| && events[j] == Act(o.task, TakeSnapshot) && events[l] == Act(o.task, Commit)
    && (o.touched <==> LastWrite(events[j..l]).Some?)
    && o.task in s.snapshots && o.lost == AfterWrites(events[j..l], s.snapshots[o.task])
  }

  /** A commit closes the window of the call that makes it. */
  lemma CommitCloses(cfg: Config, db: Db, files: map<string, Stored>, before: seq<Event>, s: State, t: TaskId)
    returns (j: nat)
    requires (Reachable(cfg, db, files, before, s) <==> true) && CanAct(cfg, s, t, Commit)
    ensures var s' := AfterAct(cfg, s, t, Commit);
            && |s'.overwrites| == |s.overwrites| + 1
            && OverwrittenIn(before + [Act(t, Commit)], s', s'.overwrites[|s.overwrites|], j, |before|)
  {
    j := HolderWindow(cfg, db, files, before, s, t);
    ReachableInv(cfg, db, files, before, s);
    HolderFacts(cfg, s, t);
    assert (before + [Act(t, Commit)])[j..|before|] == before[j..];
  }

  lemma WindowRemembered(before: seq<Event>, e: Event, s: State, s': State, o: Overwrite, j: nat, l: nat)
    requires OverwrittenIn(before, s, o, j, l) && SameSnapshot(s, s', o.task)
    ensures OverwrittenIn(before + [e], s', o, j, l) <==> true
  {
    assert (before + [e])[j..l] == before[j..l];
  }

  lemma {:induction false} WindowOf(cfg: Config, db: Db, files: map<string, Stored>, events: seq<Event>, s: State,
                                    i: nat)
    returns (j: nat, l: nat)
    requires (Reachable(cfg, db, files, events, s) <==> true) && i < |s.overwrites|
    ensures OverwrittenIn(events, s, s.overwrites[i], j, l) <==> true
    decreases |events|
  {
    var last := |events| - 1;
    var mid := LastStep(cfg, db, files, events, s);
    var e := events[last];
    assert events == events[..last] + [e];
    ChangesAreRecorded(cfg, mid, e);
    if i < |mid.overwrites| {
      assert s.overwrites[i] == mid.overwrites[i];
      j, l := WindowOf(cfg, db, files, events[..last], mid, i);
      var t := s.overwrites[i].task;
      if e == Act(t, TakeSnapshot) {
        MarkOnce(cfg, db, files, events, s, t, TakeSnapshot, j, last);
      }
      SnapshotStays(cfg, mid, e, t);
      WindowRemembered(events[..last], e, mid, s, s.overwrites[i], j, l);
    } else {
      j := CommitCloses(cfg, db, files, events[..last], mid, e.t);
      l := last;
    }
  }

  // ---------- Overwritten databases ----------

  /** Nobody but the restore writes between the two events, or the last one who does writes `seen`. */
  predicate Harmless(events: seq<Event>, j: nat, l: nat, seen: Db)
    requires j <= l <= |events|
  {
    LastWrite(events[j..l]) in {None, Some(seen)}
  }

  /** In every run each database a restore has overwritten is kept in a pre-restore copy that is still
      stored, if and only if no other program wrote the database between the moment the dump looked at
      it and the commit, or the last such write restored what the dump had seen. In any case the copy
      keeps what the dump saw: the database in state `seen`. */
  lemma OverwrittenIsKept(cfg: Config, db: Db, files: map<string, Stored>, events: seq<Event>, s: State, i: nat)
    returns (j: nat, l: nat, seen: State)
    requires Reachable(cfg, db, files, events, s) && i < |s.overwrites|
    ensures j < l < |events|
    ensures events[j] == Act(s.overwrites[i].task, TakeSnapshot) && events[l] == Act(s.overwrites[i].task, Commit)
    ensures Reachable(cfg, db, files, events[..j], seen) <==> true
    ensures KeepsCopyOf(cfg, s, s.overwrites[i].copy, seen.db)
    ensures s.overwrites[i].lost == AfterWrites(events[j..l], seen.db)
    ensures KeepsCopyOf(cfg, s, s.overwrites[i].copy, s.overwrites[i].lost) <==> Harmless(events, j, l, seen.db)
  {
    j, l := WindowOf(cfg, db, files, events, s, i);
    seen := SnapshotIsDb(cfg, db, files, events, s, s.overwrites[i].task, j);
    ReachableInv(cfg, db, files, events, s);
    CopyKeepsSnapshot(cfg, s, i);
  }

  /** The window is the only one of its call, and the flag of the machine says whether it was quiet. */
  lemma TouchedMeansWritten(cfg: Config, db: Db, files: map<string, Stored>, events: seq<Event>, s: State, i: nat,
                            j: nat, l: nat)
    requires Reachable(cfg, db, files, events, s) && i < |s.overwrites| && j < |events| && l < |events|
    requires events[j] == Act(s.overwrites[i].task, TakeSnapshot) && events[l] == Act(s.overwrites[i].task, Commit)
    ensures j < l
    ensures s.overwrites[i].touched <==> exists k :: j < k < l && IsWrite(events[k])
  {
    var t := s.overwrites[i].task;
    var j', l' := WindowOf(cfg, db, files, events, s, i);
    SameMark(cfg, db, files, events, s, t, TakeSnapshot, j, j');
    SameMark(cfg, db, files, events, s, t, Commit, l, l');
    LastWriteExists(events[j..l]);
    forall k | j < k < l ensures events[k] == events[j..l][k - j] {
    }
    assert forall k :: 0 < k < l - j ==> events[j..l][k] == events[j + k];
  }

  lemma SameMark(cfg: Config, db: Db, files: map<string, Stored>, events: seq<Event>, s: State,
                 t: TaskId, a: Action, j: nat, k: nat)
    requires (Reachable(cfg, db, files, events, s) <==> true) && IsMark(a) && j < |events| && k < |events|
    requires events[j] == Act(t, a) && events[k] == Act(t, a)
    ensures j == k
  {
    if j < k {
      MarkOnce(cfg, db, files, events, s, t, a, j, k);
    } else if k < j {
      MarkOnce(cfg, db, files, events, s, t, a, k, j);
    }
  }

  /** No other program writes the database. */
  predicate OnlyService(events: seq<Event>) {
    forall k :: 0 <= k < |events| ==> !IsWrite(events[k])
  }

  /** When only the service writes the database, every overwritten database is kept. */
  lemma NothingIsLost(cfg: Config, db: Db, files: map<string, Stored>, events: seq<Event>, s: State, i: nat)
    requires Reachable(cfg, db, files, events, s) && i < |s.overwrites| && OnlyService(events)
    ensures KeepsCopyOf(cfg, s, s.overwrites[i].copy, s.overwrites[i].lost)
  {
    var j, l, seen := OverwrittenIsKept(cfg, db, files, events, s, i);
    NoWrites(events[j..l]);
  }

  // ---------- Restore and undo ----------

  /** What the file of a restore holds. */
  predicate HoldsDb(cfg: Config, s: State, id: string, held: Db) {
    id in s.archive && cfg.load(s.archive[id].content) == Some(held)
  }

  lemma CommittedHolds(cfg: Config, s: State, t: TaskId) returns (held: Db)
    requires (Inv(cfg, s) <==> true) && t in s.tasks && s.tasks[t].pc.Restoring? && s.tasks[t].pc.committed
    ensures HoldsDb(cfg, s, s.tasks[t].pc.restored.id, held) && (!s.touched ==> s.db == held)
    ensures s.tasks[t].pc.restored.format == PgCustom
  {
    HolderFacts(cfg, s, t);
    var pc := s.tasks[t].pc;
    assert Recorded(s, t, pc.restored.id, pc.preRestore.id);
    var i :| 0 <= i < |s.overwrites| && s.overwrites[i].task == t && s.overwrites[i].source == pc.restored.id;
    assert OverwriteInv(cfg, s, s.overwrites[i]);
    held := s.overwrites[i].gained;
  }

  /** When a restore reports success, it has worked on the file it was asked for and the database is
      what that file holds, overlaid by what other programs wrote after the commit. */
  lemma RestoreLoadsSource(cfg: Config, db: Db, files: map<string, Stored>, events: seq<Event>, s: State, t: TaskId)
    returns (l: nat, held: Db)
    requires Reachable(cfg, db, files, events, s) && CanAct(cfg, s, t, FinishRestore)
    ensures l < |events| && events[l] == Act(t, Commit)
    ensures var restored := s.tasks[t].pc.restored;
            && AfterAct(cfg, s, t, FinishRestore).tasks[t].pc == Finished(Restored(restored, s.tasks[t].pc.preRestore))
            && Answers(cfg, s, s.tasks[t].call, restored) && restored.format == PgCustom
            && HoldsDb(cfg, s, restored.id, held)
            && AfterAct(cfg, s, t, FinishRestore).db == AfterWrites(events[l..], held)
  {
    l := HolderWindow(cfg, db, files, events, s, t);
    ReachableInv(cfg, db, files, events, s);
    held := CommittedHolds(cfg, s, t);
    RestoresWhatWasAsked(cfg, db, files, events, s, t);
  }

  predicate RestoredBy(s: State, t: TaskId) {
    t in s.tasks && s.tasks[t].pc.Finished? && s.tasks[t].pc.outcome.Restored?
  }

  /** The overwriting that a successful restore made. */
  lemma ItsOverwrite(cfg: Config, db: Db, files: map<string, Stored>, events: seq<Event>, s: State, t: TaskId)
    returns (i: nat)
    requires (Reachable(cfg, db, files, events, s) <==> true) && RestoredBy(s, t)
    ensures i < |s.overwrites| && s.overwrites[i].task == t
    ensures s.overwrites[i].source == s.tasks[t].pc.outcome.restored.id
    ensures s.overwrites[i].copy == s.tasks[t].pc.outcome.preRestore.id
    ensures HoldsDb(cfg, s, s.overwrites[i].source, s.overwrites[i].gained)
  {
    ReachableInv(cfg, db, files, events, s);
    var x := s.tasks[t].pc.outcome;
    assert Recorded(s, t, x.restored.id, x.preRestore.id);
    i :| 0 <= i < |s.overwrites| && s.overwrites[i].task == t
      && s.overwrites[i].source == x.restored.id && s.overwrites[i].copy == x.preRestore.id;
    assert OverwriteInv(cfg, s, s.overwrites[i]);
  }

  lemma CopyHolds(cfg: Config, db: Db, files: map<string, Stored>, events: seq<Event>, s: State, id: string, kept: Db)
    requires (Reachable(cfg, db, files, events, s) <==> true) && KeepsCopyOf(cfg, s, id, kept)
    ensures forall held :: HoldsDb(cfg, s, id, held) <==> held == kept
  {
    ReachableArchive(cfg, db, files, events, s);
  }

  lemma RestoredAsAsked(cfg: Config, db: Db, files: map<string, Stored>, events: seq<Event>, s: State, t: TaskId,
                        id: string)
    requires (Reachable(cfg, db, files, events, s) <==> true) && RestoredBy(s, t)
    requires s.tasks[t].call.Restore? && s.tasks[t].call.target == ById(id)
    ensures s.tasks[t].pc.outcome.restored.id == id
  {
    RestoresWhatWasAsked(cfg, db, files, events, s, t);
  }

  /** Undo: after restore `a` succeeded, a successful restore `b` that was asked for the copy `a` reported
      has loaded the database that the dump of `a` saw, whatever ran before, between and after; that is
      the database `a` overwrote if and only if the window of `a` was harmless. */
  lemma RestoreIsUndone(cfg: Config, db: Db, files: map<string, Stored>, events: seq<Event>, s: State,
                        a: TaskId, b: TaskId) returns (x: nat, y: nat, j: nat, l: nat, seen: State)
    requires Reachable(cfg, db, files, events, s) && RestoredBy(s, a) && RestoredBy(s, b)
    requires s.tasks[b].call.Restore? && s.tasks[b].call.target == ById(s.tasks[a].pc.outcome.preRestore.id)
    ensures x < |s.overwrites| && y < |s.overwrites| && s.overwrites[x].task == a && s.overwrites[y].task == b
    ensures j < l < |events| && events[j] == Act(a, TakeSnapshot) && events[l] == Act(a, Commit)
    ensures (Reachable(cfg, db, files, events[..j], seen) <==> true) && s.overwrites[y].gained == seen.db
    ensures s.overwrites[y].gained == s.overwrites[x].lost <==> Harmless(events, j, l, seen.db)
  {
    x := ItsOverwrite(cfg, db, files, events, s, a);
    y := ItsOverwrite(cfg, db, files, events, s, b);
    RestoredAsAsked(cfg, db, files, events, s, b, s.overwrites[x].copy);
    j, l, seen := OverwrittenIsKept(cfg, db, files, events, s, x);
    CopyHolds(cfg, db, files, events, s, s.overwrites[x].copy, seen.db);
  }

  /** When only the service writes the database: at the moment a restore of the copy that `a` reported
      succeeds, the database is exactly the one `a` overwrote. */
  lemma UndoReturnsTheDatabase(cfg: Config, db: Db, files: map<string, Stored>, events: seq<Event>, s: State,
                               a: TaskId, b: TaskId) returns (x: nat)
    requires Reachable(cfg, db, files, events, s) && OnlyService(events) && RestoredBy(s, a)
    requires CanAct(cfg, s, b, FinishRestore)
    requires s.tasks[b].call.Restore? && s.tasks[b].call.target == ById(s.tasks[a].pc.outcome.preRestore.id)
    ensures x < |s.overwrites| && s.overwrites[x].task == a
    ensures AfterAct(cfg, s, b, FinishRestore).db == s.overwrites[x].lost
  {
    x := ItsOverwrite(cfg, db, files, events, s, a);
    NothingIsLost(cfg, db, files, events, s, x);
    var l, held := RestoreLoadsSource(cfg, db, files, events, s, b);
    NoWrites(events[l..]);
    CopyHolds(cfg, db, files, events, s, s.overwrites[x].copy, s.overwrites[x].lost);
  }
}
