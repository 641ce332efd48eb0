/** Retention end to end: list the whole folder, choose the candidates, delete them one by one over
    the lossy network. */
module Prune {
  import opened Core
  import opened Mapping
  import opened Query
  import opened Retrying
  import opened DriveStorage
  import opened Listing
  import opened Retention

  /** How many attempts a delete with these fates makes. */
  function DeleteCalls(policy: RetryPolicy, fates: nat -> DeleteFate): nat {
    LastCall(policy, DeleteReplies(map[], "", fates)) + 1
  }

  lemma TransientAnywhere(files: map<string, Stored>, id: string, fates: nat -> DeleteFate, k: nat)
    ensures IsTransient(DeleteReplies(files, id, fates)(k)) <==> IsTransient(DeleteReplies(map[], "", fates)(k))
  {
    assert DeleteReplies(files, id, fates)(k) == DeleteReply(files, id, fates(k));
    assert DeleteReplies(map[], "", fates)(k) == DeleteReply(map[], "", fates(k));
  }

  lemma DeleteCallsAnywhere(policy: RetryPolicy, files: map<string, Stored>, id: string, fates: nat -> DeleteFate)
    ensures LastCall(policy, DeleteReplies(files, id, fates)) + 1 == DeleteCalls(policy, fates)
  {
    var here, last := DeleteReplies(files, id, fates), DeleteCalls(policy, fates) - 1;
    forall k | 0 <= k <= last
      ensures IsTransient(here(k)) <==> IsTransient(DeleteReplies(map[], "", fates)(k))
    {
      TransientAnywhere(files, id, fates, k);
    }
    LastCallUnique(policy, here, last);
  }

  /** Some attempt of the delete takes effect. */
  predicate Removes(policy: RetryPolicy, fates: nat -> DeleteFate) {
    AnyEffect(fates, DeleteCalls(policy, fates))
  }

  predicate DeleteSucceeds(policy: RetryPolicy, fates: nat -> DeleteFate) {
    var last := fates(DeleteCalls(policy, fates) - 1);
    last.Served? || last.Hidden?
  }

  /** An attempt took effect and its reply was lost. */
  predicate LosesEffect(policy: RetryPolicy, fates: nat -> DeleteFate) {
    exists k :: 0 <= k < DeleteCalls(policy, fates) && fates(k).Lost? && fates(k).applied
  }

  /** When removal and success differ: a delete that reports failure has removed the file exactly when an
      attempt took effect and lost its reply, and one that reports success has not removed it exactly
      when Drive hides the file and no attempt took effect. */
  lemma RemovalVersusSuccess(policy: RetryPolicy, fates: nat -> DeleteFate)
    ensures !DeleteSucceeds(policy, fates) ==> (Removes(policy, fates) <==> LosesEffect(policy, fates))
    ensures DeleteSucceeds(policy, fates) ==>
              (!Removes(policy, fates)
               <==> fates(DeleteCalls(policy, fates) - 1).Hidden? && !LosesEffect(policy, fates))
  {
    var n := DeleteCalls(policy, fates);
    forall k | 0 <= k < n - 1 ensures !fates(k).Served? {
      assert IsTransient(DeleteReplies(map[], "", fates)(k));
    }
    if fates(n - 1).Served? {
      assert TakesEffect(fates(n - 1));
    }
  }

  /** So the files removed are not always those whose deletion succeeded. */
  lemma LostDeleteStillRemoves(policy: RetryPolicy)
    ensures var fates := (k: nat) => Lost(true, "connection reset");
            Removes(policy, fates) && !DeleteSucceeds(policy, fates)
  {
    var fates := (k: nat) => Lost(true, "connection reset");
    assert TakesEffect(fates(0));
  }

  /** Ids of the first `n` candidates that some attempt has removed. */
  function RemovedIds(policy: RetryPolicy, candidates: seq<BackupInfo>, fates: nat -> nat -> DeleteFate, n: nat)
    : set<string>
    requires n <= |candidates|
  {
    set i | 0 <= i < n && Removes(policy, fates(i)) :: candidates[i].id
  }

  /** `removed` are the candidates among the first `n` whose deletion was reported as done. */
  ghost predicate ReportedDone(policy: RetryPolicy, candidates: seq<BackupInfo>, fates: nat -> nat -> DeleteFate,
                               n: nat, removed: seq<BackupInfo>)
    requires n <= |candidates|
  {
    forall b :: b in removed <==> exists i :: 0 <= i < n && candidates[i] == b && DeleteSucceeds(policy, fates(i))
  }

  lemma RemovedGrows(policy: RetryPolicy, candidates: seq<BackupInfo>, fates: nat -> nat -> DeleteFate, n: nat)
    requires n < |candidates|
    ensures RemovedIds(policy, candidates, fates, n + 1)
         == RemovedIds(policy, candidates, fates, n) + (if Removes(policy, fates(n)) then {candidates[n].id} else {})
  {
  }

  lemma ReportedGrows(policy: RetryPolicy, candidates: seq<BackupInfo>, fates: nat -> nat -> DeleteFate, n: nat,
                      removed: seq<BackupInfo>)
    requires n < |candidates| && ReportedDone(policy, candidates, fates, n, removed)
    ensures ReportedDone(policy, candidates, fates, n + 1,
                         removed + (if DeleteSucceeds(policy, fates(n)) then [candidates[n]] else []))
  {
  }

  method DeleteCandidate(storage: GoogleDriveStorage, id: string, fates: nat -> DeleteFate) returns (done: bool)
    modifies storage`files
    ensures storage.files == if Removes(storage.policy, fates) then old(storage.files) - {id} else old(storage.files)
    ensures done <==> DeleteSucceeds(storage.policy, fates)
  {
    DeleteCallsAnywhere(storage.policy, storage.files, id, fates);
    var result, calls := storage.Delete(id, fates);
    done := result.Success?;
  }

  /** Every candidate is tried and no failure stops the loop. */
  method DeleteAll(storage: GoogleDriveStorage, candidates: seq<BackupInfo>, fates: nat -> nat -> DeleteFate)
    returns (removed: seq<BackupInfo>)
    modifies storage`files
    ensures storage.files == old(storage.files) - RemovedIds(storage.policy, candidates, fates, |candidates|)
    ensures ReportedDone(storage.policy, candidates, fates, |candidates|, removed)
  {
    removed := [];
    var i := 0;
    while i < |candidates|
      invariant 0 <= i <= |candidates|
      invariant storage.files == old(storage.files) - RemovedIds(storage.policy, candidates, fates, i)
      invariant ReportedDone(storage.policy, candidates, fates, i, removed)
    {
      var b := candidates[i];
      var done := DeleteCandidate(storage, b.id, fates(i));
      RemovedGrows(storage.policy, candidates, fates, i);
      ReportedGrows(storage.policy, candidates, fates, i, removed);
      removed := removed + (if done then [b] else []);
      i := i + 1;
    }
  }

  /** Best effort pruning. Nothing happens without a retention setting or when the listing fails;
      otherwise exactly the candidates of the whole listing with an effective attempt disappear.
      `removed` are the deletions reported as done. */
  method PruneOldBackups(storage: GoogleDriveStorage, retention: Option<nat>, pager: Pager,
                         listFaults: nat -> Faults, fates: nat -> nat -> DeleteFate)
    returns (listed: Result<seq<BackupInfo>>, removed: seq<BackupInfo>)
    modifies storage`files
    ensures retention.None? || listed.Failure? ==> storage.files == old(storage.files) && removed == []
    ensures retention.Some? ==>
              AllOrNothing(Retried(storage.policy, pager, listFaults, true), pager, MAX_RETENTION_PAGES, listed)
    ensures retention.Some? && listed.Success? ==>
              var candidates := RetentionCandidates(listed.value, retention.value);
              && storage.files == old(storage.files) - RemovedIds(storage.policy, candidates, fates, |candidates|)
              && ReportedDone(storage.policy, candidates, fates, |candidates|, removed)
  {
    listed, removed := Success([]), [];
    if retention.Some? {
      listed := ListAll(storage.policy, pager, listFaults);
      if listed.Success? {
        removed := DeleteAll(storage, RetentionCandidates(listed.value, retention.value), fates);
      }
    }
  }

  // ---------- What retention leaves behind ----------

  /** `listing` shows exactly the stored files the folder query selects, each once. */
  predicate WholeFolder(files: map<string, Stored>, folder: string, listing: seq<DriveFile>) {
    && Shows(files, FolderQuery(folder), listing)
    && (forall i, j :: 0 <= i < j < |listing| ==> listing[i].id != listing[j].id)
    && (forall id :: id in files ==>
          && files[id].meta.id == Some(id)
          && (TextSelects(FolderQuery(folder), files[id].meta) ==> files[id].meta in listing))
  }

  lemma {:induction false} BackupsDistinct(listing: seq<DriveFile>)
    requires forall i, j :: 0 <= i < j < |listing| ==> listing[i].id != listing[j].id
    ensures DistinctIds(Backups(listing))
  {
    if listing != [] {
      BackupsDistinct(listing[1..]);
      var rest := Backups(listing[1..]);
      forall k | 0 <= k < |rest| ensures listing[0].id != Some(rest[k].id) {
        var i := BackupComesFromFile(listing[1..], rest[k]);
        assert listing[1..][i] == listing[i + 1];
      }
    }
  }

  lemma {:induction false} FileIsListed(listing: seq<DriveFile>, file: DriveFile)
    requires file in listing && ToBackupInfo(file).Success?
    ensures ToBackupInfo(file).value in Backups(listing)
  {
    if listing[0] != file {
      FileIsListed(listing[1..], file);
    }
  }

  /** A file retention never considers. */
  predicate Exempt(folder: string, file: DriveFile) {
    || !TextSelects(FolderQuery(folder), file)
    || ToBackupInfo(file).Failure?
    || ToBackupInfo(file).value.kind != Regular
    || ToBackupInfo(file).value.format != PgCustom
  }

  /** A candidate is the description of a stored file that retention considers. */
  lemma CandidateFile(files: map<string, Stored>, folder: string, listing: seq<DriveFile>, keep: nat, b: BackupInfo)
    requires Shows(files, FolderQuery(folder), listing) && b in RetentionCandidates(Backups(listing), keep)
    ensures b.id in files && ToBackupInfo(files[b.id].meta) == Success(b) && !Exempt(folder, files[b.id].meta)
  {
    CandidatesAreOldest(Backups(listing), keep);
    var k := BackupComesFromFile(listing, b);
    assert listing[k].id == Some(b.id);
  }

  lemma RankedIsNoCandidate(backups: seq<BackupInfo>, keep: nat, i: nat, b: BackupInfo)
    requires DistinctIds(backups) && i < |backups| && Rank(backups, i) < keep
    requires b in RetentionCandidates(backups, keep)
    ensures b.id != backups[i].id
  {
    CandidatesAreOldest(backups, keep);
    CandidateIffRank(backups, keep, i);
    var m :| 0 <= m < |backups| && backups[m] == b;
  }

  /** Everything that is not a candidate stays as it was, whatever the deletes did: in particular every
      file outside the folder, every file that is no backup, every legacy backup, every pre-restore copy,
      and each of the newest `keep` regular backups. */
  lemma RetentionKeeps(files: map<string, Stored>, folder: string, listing: seq<DriveFile>, keep: nat,
                       after: map<string, Stored>, gone: set<string>, id: string)
    requires WholeFolder(files, folder, listing)
    requires forall g :: g in gone ==> exists b :: b in RetentionCandidates(Backups(listing), keep) && b.id == g
    requires after == files - gone && id in files
    ensures id in after ==> after[id] == files[id]
    ensures Exempt(folder, files[id].meta) ==> id in after
    ensures forall i :: 0 <= i < |Backups(listing)| && Backups(listing)[i].id == id
                        && Rank(Backups(listing), i) < keep ==>
              id in after
  {
    BackupsDistinct(listing);
    if id in gone {
      var b :| b in RetentionCandidates(Backups(listing), keep) && b.id == id;
      CandidateFile(files, folder, listing, keep, b);
      forall i | 0 <= i < |Backups(listing)| && Backups(listing)[i].id == id
        ensures Rank(Backups(listing), i) >= keep
      {
        if Rank(Backups(listing), i) < keep {
          RankedIsNoCandidate(Backups(listing), keep, i, b);
        }
      }
    }
  }

  /** `latest` describes a stored file that is strictly newer than every other prunable one. */
  predicate IsNewest(files: map<string, Stored>, listing: seq<DriveFile>, latest: BackupInfo) {
    && latest.id in files && ToBackupInfo(files[latest.id].meta) == Success(latest)
    && forall b :: b in Backups(listing) && b.kind == Regular && b.format == PgCustom && b != latest ==>
         b.createdAt < latest.createdAt
  }

  /** A just uploaded backup with the strictly newest creation time is no candidate for any positive count. */
  lemma NewestIsNoCandidate(files: map<string, Stored>, folder: string, listing: seq<DriveFile>, keep: nat,
                            latest: BackupInfo)
    requires WholeFolder(files, folder, listing) && keep >= 1 && IsNewest(files, listing, latest)
    ensures forall b :: b in RetentionCandidates(Backups(listing), keep) ==> b.id != latest.id
  {
    BackupsDistinct(listing);
    NewestSurvives(Backups(listing), keep, latest);
    forall b | b in RetentionCandidates(Backups(listing), keep) ensures b.id != latest.id {
      CandidateFile(files, folder, listing, keep, b);
    }
  }

  lemma RankedFile(files: map<string, Stored>, folder: string, listing: seq<DriveFile>, b: BackupInfo)
    requires Shows(files, FolderQuery(folder), listing) && b in Ranked(Backups(listing))
    ensures b.id in files && ToBackupInfo(files[b.id].meta) == Success(b) && !Exempt(folder, files[b.id].meta)
  {
    RankedProperties(Backups(listing));
    var k := BackupComesFromFile(listing, b);
    assert listing[k].id == Some(b.id);
  }

  /** The position of a considered file in the ranking. */
  lemma RankOfFile(files: map<string, Stored>, folder: string, listing: seq<DriveFile>, id: string) returns (k: nat)
    requires WholeFolder(files, folder, listing) && id in files && !Exempt(folder, files[id].meta)
    ensures k < |Ranked(Backups(listing))| && Ranked(Backups(listing))[k].id == id
  {
    FileIsListed(listing, files[id].meta);
    RankedProperties(Backups(listing));
    var b := ToBackupInfo(files[id].meta).value;
    assert b in Ranked(Backups(listing));
    k :| 0 <= k < |Ranked(Backups(listing))| && Ranked(Backups(listing))[k] == b;
  }

  lemma TailIsCandidate(backups: seq<BackupInfo>, keep: nat)
    ensures forall k :: keep <= k < |Ranked(backups)| ==> Ranked(backups)[k] in RetentionCandidates(backups, keep)
  {
    var r := Ranked(backups);
    assert forall k :: keep <= k < |r| ==> r[k] == r[keep..][k - keep];
  }

  /** When every candidate is removed, the regular pg_dump backups left in the folder are exactly the
      newest `keep`. */
  lemma FullPruneLeavesNewest(files: map<string, Stored>, folder: string, listing: seq<DriveFile>, keep: nat,
                              after: map<string, Stored>, gone: set<string>, id: string)
    requires WholeFolder(files, folder, listing)
    requires forall g :: g in gone <==> exists b :: b in RetentionCandidates(Backups(listing), keep) && b.id == g
    requires after == files - gone
    ensures id in after && !Exempt(folder, after[id].meta) <==>
              exists k :: 0 <= k < |Ranked(Backups(listing))| && k < keep && Ranked(Backups(listing))[k].id == id
  {
    var r := Ranked(Backups(listing));
    BackupsDistinct(listing);
    RankedDistinct(Backups(listing));
    TailIsCandidate(Backups(listing), keep);
    if id in after && !Exempt(folder, after[id].meta) {
      var k := RankOfFile(files, folder, listing, id);
    }
    if k :| 0 <= k < |r| && k < keep && r[k].id == id {
      RankedFile(files, folder, listing, r[k]);
      forall b | b in RetentionCandidates(Backups(listing), keep) ensures b.id != id {
        var m :| 0 <= m < |r[keep..]| && r[keep..][m] == b;
        assert r[keep + m] == b;
      }
    }
  }

  // ---------- End to end ----------

  /** What pruning never takes: every exempt file, each of the newest `keep` backups, and for a positive
      count a strictly newest one. Nothing new appears and what stays is unchanged. */
  ghost predicate Spares(before: map<string, Stored>, after: map<string, Stored>, folder: string,
                         listing: seq<DriveFile>, keep: nat)
  {
    && (forall id :: id in after ==> id in before && after[id] == before[id])
    && (forall id :: id in before && Exempt(folder, before[id].meta) ==> id in after)
    && (forall i :: 0 <= i < |Backups(listing)| && Rank(Backups(listing), i) < keep ==> Backups(listing)[i].id in after)
    && (keep >= 1 ==> forall b :: IsNewest(before, listing, b) ==> b.id in after)
  }

  /** The considered files left are exactly the newest `keep`. */
  ghost predicate OnlyNewestLeft(after: map<string, Stored>, folder: string, listing: seq<DriveFile>, keep: nat) {
    forall id :: id in after && !Exempt(folder, after[id].meta) <==>
      exists k :: 0 <= k < |Ranked(Backups(listing))| && k < keep && Ranked(Backups(listing))[k].id == id
  }

  predicate AreCandidates(gone: set<string>, listing: seq<DriveFile>, keep: nat) {
    forall g :: g in gone ==> exists b :: b in RetentionCandidates(Backups(listing), keep) && b.id == g
  }

  lemma RankedStays(files: map<string, Stored>, folder: string, listing: seq<DriveFile>, keep: nat,
                    gone: set<string>, i: nat)
    requires WholeFolder(files, folder, listing) && AreCandidates(gone, listing, keep)
    requires i < |Backups(listing)| && Rank(Backups(listing), i) < keep
    ensures Backups(listing)[i].id in files - gone
  {
    var b := Backups(listing)[i];
    var k := BackupComesFromFile(listing, b);
    IdComesFromFile(listing[k], b);
    RetentionKeeps(files, folder, listing, keep, files - gone, gone, b.id);
  }

  lemma CandidatesGoneSpares(files: map<string, Stored>, folder: string, listing: seq<DriveFile>, keep: nat,
                             gone: set<string>)
    requires WholeFolder(files, folder, listing) && AreCandidates(gone, listing, keep)
    ensures Spares(files, files - gone, folder, listing, keep) <==> true
  {
    forall id | id in files && Exempt(folder, files[id].meta) ensures id in files - gone {
      RetentionKeeps(files, folder, listing, keep, files - gone, gone, id);
    }
    forall i | 0 <= i < |Backups(listing)| && Rank(Backups(listing), i) < keep
      ensures Backups(listing)[i].id in files - gone
    {
      RankedStays(files, folder, listing, keep, gone, i);
    }
    forall b | keep >= 1 && IsNewest(files, listing, b) ensures b.id in files - gone {
      NewestIsNoCandidate(files, folder, listing, keep, b);
    }
  }

  lemma RemovedAreCandidates(policy: RetryPolicy, listing: seq<DriveFile>, keep: nat, fates: nat -> nat -> DeleteFate)
    ensures var candidates := RetentionCandidates(Backups(listing), keep);
            AreCandidates(RemovedIds(policy, candidates, fates, |candidates|), listing, keep)
  {
  }

  /** Every candidate is removed by some attempt. */
  predicate AllRemoved(policy: RetryPolicy, candidates: seq<BackupInfo>, fates: nat -> nat -> DeleteFate) {
    forall i :: 0 <= i < |candidates| ==> Removes(policy, fates(i))
  }

  lemma AllRemovedIds(policy: RetryPolicy, candidates: seq<BackupInfo>, fates: nat -> nat -> DeleteFate)
    requires AllRemoved(policy, candidates, fates)
    ensures forall g :: g in RemovedIds(policy, candidates, fates, |candidates|) <==>
              exists b :: b in candidates && b.id == g
  {
    forall b | b in candidates ensures b.id in RemovedIds(policy, candidates, fates, |candidates|) {
      var i :| 0 <= i < |candidates| && candidates[i] == b;
      assert Removes(policy, fates(i));
    }
  }

  lemma AllGoneLeavesNewest(files: map<string, Stored>, folder: string, listing: seq<DriveFile>, keep: nat,
                            gone: set<string>)
    requires WholeFolder(files, folder, listing)
    requires forall g :: g in gone <==> exists b :: b in RetentionCandidates(Backups(listing), keep) && b.id == g
    ensures OnlyNewestLeft(files - gone, folder, listing, keep) <==> true
  {
    forall id
      ensures id in files - gone && !Exempt(folder, (files - gone)[id].meta) <==>
                exists k :: 0 <= k < |Ranked(Backups(listing))| && k < keep && Ranked(Backups(listing))[k].id == id
    {
      FullPruneLeavesNewest(files, folder, listing, keep, files - gone, gone, id);
    }
  }

  /** Pruning a folder whose listing the storage serves in pages, `n` being the last one. Whatever the
      network does to listing and deletes, pruning spares what it must; and when the listing comes
      through and every delete takes effect, exactly the newest `keep` regular backups are left. */
  method PruneFolder(storage: GoogleDriveStorage, keep: nat, pager: Pager, ghost n: nat,
                     listFaults: nat -> Faults, fates: nat -> nat -> DeleteFate)
    returns (listed: Result<seq<BackupInfo>>)
    requires EndsAt(pager, n) && WholeFolder(storage.files, storage.folder, Chain(pager, n + 1))
    modifies storage`files
    ensures Spares(old(storage.files), storage.files, storage.folder, Chain(pager, n + 1), keep)
    ensures listed.Success? <==>
              Complete(Retried(storage.policy, pager, listFaults, true), pager, MAX_RETENTION_PAGES, n)
    ensures listed.Success? && AllRemoved(storage.policy, RetentionCandidates(listed.value, keep), fates) ==>
              OnlyNewestLeft(storage.files, storage.folder, Chain(pager, n + 1), keep)
  {
    ghost var before, listing := storage.files, Chain(pager, n + 1);
    var removed;
    listed, removed := PruneOldBackups(storage, Some(keep), pager, listFaults, fates);
    OnlyEnd(Retried(storage.policy, pager, listFaults, true), pager, n, listed);
    if listed.Success? {
      ghost var candidates := RetentionCandidates(Backups(listing), keep);
      RemovedAreCandidates(storage.policy, listing, keep, fates);
      CandidatesGoneSpares(before, storage.folder, listing, keep,
                           RemovedIds(storage.policy, candidates, fates, |candidates|));
      if AllRemoved(storage.policy, candidates, fates) {
        AllRemovedIds(storage.policy, candidates, fates);
        AllGoneLeavesNewest(before, storage.folder, listing, keep,
                            RemovedIds(storage.policy, candidates, fates, |candidates|));
      }
    } else {
      CandidatesGoneSpares(before, storage.folder, listing, keep, {});
      assert before - {} == before;
    }
  }

  /** A listing that came through is the whole chain. */
  lemma OnlyEnd(list: ListPort, pager: Pager, n: nat, listed: Result<seq<BackupInfo>>)
    requires AllOrNothing(list, pager, MAX_RETENTION_PAGES, listed) && EndsAt(pager, n)
    ensures listed.Success? <==> Complete(list, pager, MAX_RETENTION_PAGES, n)
    ensures listed.Success? ==> listed.value == Backups(Chain(pager, n + 1))
  {
    if listed.Success? {
      var m: nat :| Complete(list, pager, MAX_RETENTION_PAGES, m);
      EndIsUnique(pager, m, n);
    }
  }
}
