/** Which backups retention removes: the regular pg_dump backups beyond the newest `keep`.
    The stable newest-first sort is pinned down by ranks, and retention is shown to commute
    with earlier partial deletions. */
module Retention {
  import opened Core

  /** Upper bound for the retention scan. */
  const MAX_RETENTION_PAGES: nat := 100

  predicate Prunable(b: BackupInfo) {
    b.kind.Regular? && b.format.PgCustom?
  }

  function PrunableOf(backups: seq<BackupInfo>): seq<BackupInfo> {
    if backups == [] then []
    else (if Prunable(backups[0]) then [backups[0]] else []) + PrunableOf(backups[1..])
  }

  /** Places `b` before the first entry that is not newer. */
  function InsertNewest(b: BackupInfo, sorted: seq<BackupInfo>): seq<BackupInfo> {
    if sorted == [] || sorted[0].createdAt <= b.createdAt then [b] + sorted
    else [sorted[0]] + InsertNewest(b, sorted[1..])
  }

  /** Stable sort, newest first. */
  function SortNewest(backups: seq<BackupInfo>): seq<BackupInfo> {
    if backups == [] then [] else InsertNewest(backups[0], SortNewest(backups[1..]))
  }

  function Ranked(backups: seq<BackupInfo>): seq<BackupInfo> {
    SortNewest(PrunableOf(backups))
  }

  function RetentionCandidates(backups: seq<BackupInfo>, keep: nat): seq<BackupInfo> {
    var prunable := Ranked(backups);
    if keep >= |prunable| then [] else prunable[keep..]
  }

  // ---------- Reference definition: ranks ----------

  /** Entry `j` is a regular pg_dump backup that comes ahead of entry `i`: newer, or as new and listed
      earlier. Written out here, independently of the code's own test. */
  predicate Ahead(backups: seq<BackupInfo>, j: nat, i: nat)
    requires i < |backups| && j < |backups|
  {
    && backups[j].kind == Regular && backups[j].format == PgCustom
    && (backups[j].createdAt > backups[i].createdAt || (backups[j].createdAt == backups[i].createdAt && j < i))
  }

  /** How many of the first `n` entries come ahead of entry `i`. */
  function CountAhead(backups: seq<BackupInfo>, i: nat, n: nat): nat
    requires i < |backups| && n <= |backups|
  {
    if n == 0 then 0 else CountAhead(backups, i, n - 1) + (if Ahead(backups, n - 1, i) then 1 else 0)
  }

  function Rank(backups: seq<BackupInfo>, i: nat): nat
    requires i < |backups|
  {
    CountAhead(backups, i, |backups|)
  }

  predicate NewestFirst(xs: seq<BackupInfo>) {
    forall i, j :: 0 <= i < j < |xs| ==> xs[i].createdAt >= xs[j].createdAt
  }

  predicate DistinctIds(xs: seq<BackupInfo>) {
    forall i, j :: 0 <= i < j < |xs| ==> xs[i].id != xs[j].id
  }

  predicate DistinctTimes(xs: seq<BackupInfo>) {
    forall i, j :: 0 <= i < j < |xs| ==> xs[i].createdAt != xs[j].createdAt
  }

  /** How many entries of a sorted list are newer than `t`: the place of an insertion. */
  function NewerThan(sorted: seq<BackupInfo>, t: int): (p: nat)
    ensures p <= |sorted|
    ensures forall k :: 0 <= k < p ==> sorted[k].createdAt > t
    ensures p < |sorted| ==> sorted[p].createdAt <= t
  {
    if sorted == [] || sorted[0].createdAt <= t then 0 else 1 + NewerThan(sorted[1..], t)
  }

  lemma {:induction false} InsertAt(b: BackupInfo, sorted: seq<BackupInfo>)
    ensures var p := NewerThan(sorted, b.createdAt);
            InsertNewest(b, sorted) == sorted[..p] + [b] + sorted[p..]
  {
    if sorted != [] && sorted[0].createdAt > b.createdAt {
      InsertAt(b, sorted[1..]);
      var p := NewerThan(sorted[1..], b.createdAt);
      assert [sorted[0]] + sorted[1..][..p] == sorted[..p + 1] && sorted[1..][p..] == sorted[p + 1..];
    }
  }

  /** The inserted entry lands behind the newer ones; the others keep their order. */
  lemma InsertPlaces(b: BackupInfo, sorted: seq<BackupInfo>)
    ensures var p, out := NewerThan(sorted, b.createdAt), InsertNewest(b, sorted);
            && |out| == |sorted| + 1 && out[p] == b
            && (forall k :: 0 <= k < p ==> out[k] == sorted[k])
            && (forall k :: p < k < |out| ==> out[k] == sorted[k - 1])
  {
    InsertAt(b, sorted);
  }

  /** An insertion moves back exactly the entries that are not newer. */
  lemma InsertShifts(b: BackupInfo, sorted: seq<BackupInfo>, k: nat)
    requires NewestFirst(sorted) && k < |sorted|
    ensures |InsertNewest(b, sorted)| == |sorted| + 1
    ensures InsertNewest(b, sorted)[if b.createdAt >= sorted[k].createdAt then k + 1 else k] == sorted[k]
  {
    InsertPlaces(b, sorted);
  }

  lemma InsertNewestFirst(b: BackupInfo, sorted: seq<BackupInfo>)
    requires NewestFirst(sorted)
    ensures NewestFirst(InsertNewest(b, sorted))
  {
    InsertPlaces(b, sorted);
  }

  lemma InsertMembers(b: BackupInfo, xs: seq<BackupInfo>)
    ensures forall x :: x in InsertNewest(b, xs) <==> x == b || x in xs
  {
    InsertAt(b, xs);
    var p := NewerThan(xs, b.createdAt);
    assert xs == xs[..p] + xs[p..];
  }

  /** Ranking follows the listing: a prunable head is inserted, any other is dropped. */
  lemma RankedCons(backups: seq<BackupInfo>)
    requires backups != []
    ensures Ranked(backups)
         == if Prunable(backups[0]) then InsertNewest(backups[0], Ranked(backups[1..])) else Ranked(backups[1..])
  {
    var b, rest := backups[0], PrunableOf(backups[1..]);
    if Prunable(b) {
      assert ([b] + rest)[0] == b && ([b] + rest)[1..] == rest;
    } else {
      assert [] + rest == rest;
    }
  }

  lemma {:induction false} RankedSorted(backups: seq<BackupInfo>)
    ensures NewestFirst(Ranked(backups))
    ensures |Ranked(backups)| == |PrunableOf(backups)|
  {
    if backups != [] {
      RankedSorted(backups[1..]);
      RankedCons(backups);
      InsertNewestFirst(backups[0], Ranked(backups[1..]));
      InsertPlaces(backups[0], Ranked(backups[1..]));
    }
  }

  lemma {:induction false} RankedMembers(backups: seq<BackupInfo>, b: BackupInfo)
    ensures b in Ranked(backups) <==> b in backups && Prunable(b)
  {
    if backups != [] {
      RankedMembers(backups[1..], b);
      RankedCons(backups);
      InsertMembers(backups[0], Ranked(backups[1..]));
      assert b in backups <==> b == backups[0] || b in backups[1..];
    }
  }

  /** The ranking is sorted and holds exactly the prunable backups. */
  lemma RankedProperties(backups: seq<BackupInfo>)
    ensures NewestFirst(Ranked(backups))
    ensures |Ranked(backups)| == |PrunableOf(backups)|
    ensures forall b :: b in Ranked(backups) <==> b in backups && Prunable(b)
  {
    RankedSorted(backups);
    forall b ensures b in Ranked(backups) <==> b in backups && Prunable(b) {
      RankedMembers(backups, b);
    }
  }

  lemma {:induction false} CountAheadShift(backups: seq<BackupInfo>, i: nat, n: nat)
    requires 1 <= i < |backups| && 1 <= n <= |backups|
    ensures CountAhead(backups, i, n)
         == CountAhead(backups[1..], i - 1, n - 1) + (if Ahead(backups, 0, i) then 1 else 0)
  {
    if n > 1 {
      CountAheadShift(backups, i, n - 1);
      assert Ahead(backups, n - 1, i) == Ahead(backups[1..], n - 2, i - 1);
    }
  }

  /** Newest entries of the tail that beat the head, counted in the list and in the sorted tail. */
  lemma {:induction false} HeadRank(backups: seq<BackupInfo>, t: int)
    ensures NewerThan(Ranked(backups), t) == NewerCount(backups, t)
  {
    if backups != [] {
      var b, tail := backups[0], backups[1..];
      HeadRank(tail, t);
      RankedSorted(tail);
      RankedCons(backups);
      NewerThanInsert(b, Ranked(tail), t);
    }
  }

  function NewerCount(backups: seq<BackupInfo>, t: int): nat {
    if backups == [] then 0
    else (if Prunable(backups[0]) && backups[0].createdAt > t then 1 else 0) + NewerCount(backups[1..], t)
  }

  lemma {:induction false} NewerThanInsert(b: BackupInfo, sorted: seq<BackupInfo>, t: int)
    requires NewestFirst(sorted)
    ensures NewerThan(InsertNewest(b, sorted), t) == NewerThan(sorted, t) + (if b.createdAt > t then 1 else 0)
  {
    var p, q := NewerThan(sorted, b.createdAt), NewerThan(sorted, t);
    var out := InsertNewest(b, sorted);
    InsertAt(b, sorted);
    NewerThanUnique(out, t, q + (if b.createdAt > t then 1 else 0));
  }

  lemma NewerThanUnique(sorted: seq<BackupInfo>, t: int, p: nat)
    requires p <= |sorted|
    requires forall k :: 0 <= k < p ==> sorted[k].createdAt > t
    requires p < |sorted| ==> sorted[p].createdAt <= t
    ensures NewerThan(sorted, t) == p
  {
  }

  lemma {:induction false} CountAheadOfHead(backups: seq<BackupInfo>, n: nat)
    requires 1 <= n <= |backups|
    ensures CountAhead(backups, 0, n) == NewerCount(backups[1..n], backups[0].createdAt)
  {
    if n > 1 {
      CountAheadOfHead(backups, n - 1);
      assert backups[1..n] == backups[1..n - 1] + [backups[n - 1]];
      NewerCountAppend(backups[1..n - 1], backups[n - 1], backups[0].createdAt);
    }
  }

  lemma {:induction false} NewerCountAppend(xs: seq<BackupInfo>, b: BackupInfo, t: int)
    ensures NewerCount(xs + [b], t) == NewerCount(xs, t) + (if Prunable(b) && b.createdAt > t then 1 else 0)
  {
    if xs == [] {
      assert xs + [b] == [b];
    } else {
      assert (xs + [b])[1..] == xs[1..] + [b];
      NewerCountAppend(xs[1..], b, t);
    }
  }

  lemma HeadAtRank(backups: seq<BackupInfo>)
    requires backups != [] && Prunable(backups[0])
    ensures Rank(backups, 0) < |Ranked(backups)|
    ensures Ranked(backups)[Rank(backups, 0)] == backups[0]
  {
    CountAheadOfHead(backups, |backups|);
    assert backups[1..|backups|] == backups[1..];
    HeadRank(backups[1..], backups[0].createdAt);
    RankedCons(backups);
    InsertPlaces(backups[0], Ranked(backups[1..]));
  }

  /** One more backup in front shifts an entry exactly when it comes ahead. */
  lemma RankShifts(backups: seq<BackupInfo>, i: nat)
    requires 1 <= i < |backups|
    ensures var ahead := Prunable(backups[0]) && backups[0].createdAt >= backups[i].createdAt;
            Rank(backups, i) == Rank(backups[1..], i - 1) + (if ahead then 1 else 0)
  {
    CountAheadShift(backups, i, |backups|);
  }

  lemma PlaceShifts(backups: seq<BackupInfo>, b: BackupInfo, k: nat)
    requires backups != [] && k < |Ranked(backups[1..])| && Ranked(backups[1..])[k] == b
    ensures var k' := if Prunable(backups[0]) && backups[0].createdAt >= b.createdAt then k + 1 else k;
            k' < |Ranked(backups)| && Ranked(backups)[k'] == b
  {
    RankedCons(backups);
    RankedSorted(backups[1..]);
    InsertShifts(backups[0], Ranked(backups[1..]), k);
  }

  /** The stable sort puts every prunable backup at its rank. */
  lemma {:induction false} RankedAtRank(backups: seq<BackupInfo>, i: nat)
    requires i < |backups| && backups[i].kind == Regular && backups[i].format == PgCustom
    ensures Rank(backups, i) < |Ranked(backups)|
    ensures Ranked(backups)[Rank(backups, i)] == backups[i]
  {
    if i == 0 {
      HeadAtRank(backups);
    } else {
      RankedAtRank(backups[1..], i - 1);
      RankShifts(backups, i);
      PlaceShifts(backups, backups[i], Rank(backups[1..], i - 1));
    }
  }

  /** Where the entry at `k` of an insertion at `p` comes from. */
  function Origin(p: nat, k: nat): nat
    requires k != p
  {
    if k < p then k else k - 1
  }

  lemma InsertOrigin(b: BackupInfo, xs: seq<BackupInfo>, k: nat)
    requires k <= |xs| && k != NewerThan(xs, b.createdAt)
    ensures var p, out := NewerThan(xs, b.createdAt), InsertNewest(b, xs);
            k < |out| && Origin(p, k) < |xs| && out[k] == xs[Origin(p, k)] && out[k] in xs
  {
    InsertPlaces(b, xs);
  }

  /** Two entries of an insertion are two entries of the list, or one is the inserted one. */
  lemma InsertPair(b: BackupInfo, xs: seq<BackupInfo>, i: nat, j: nat)
    requires i < j <= |xs|
    ensures var p, out := NewerThan(xs, b.createdAt), InsertNewest(b, xs);
            && |out| == |xs| + 1
            && (i == p ==> out[i] == b && out[j] in xs) && (j == p ==> out[j] == b && out[i] in xs)
            && (i != p && j != p ==> Origin(p, i) < Origin(p, j) < |xs|
                                     && out[i] == xs[Origin(p, i)] && out[j] == xs[Origin(p, j)])
  {
    var p := NewerThan(xs, b.createdAt);
    InsertPlaces(b, xs);
    if i != p {
      InsertOrigin(b, xs, i);
    }
    if j != p {
      InsertOrigin(b, xs, j);
    }
  }

  lemma InsertKeepsDistinctIds(b: BackupInfo, xs: seq<BackupInfo>)
    requires DistinctIds(xs) && forall x :: x in xs ==> x.id != b.id
    ensures DistinctIds(InsertNewest(b, xs))
  {
    var out := InsertNewest(b, xs);
    InsertPlaces(b, xs);
    forall i, j | 0 <= i < j < |out| ensures out[i].id != out[j].id {
      InsertPair(b, xs, i, j);
    }
  }

  lemma InsertKeepsDistinctTimes(b: BackupInfo, xs: seq<BackupInfo>)
    requires DistinctTimes(xs) && forall x :: x in xs ==> x.createdAt != b.createdAt
    ensures DistinctTimes(InsertNewest(b, xs))
  {
    var out := InsertNewest(b, xs);
    InsertPlaces(b, xs);
    forall i, j | 0 <= i < j < |out| ensures out[i].createdAt != out[j].createdAt {
      InsertPair(b, xs, i, j);
    }
  }

  lemma {:induction false} RankedDistinct(backups: seq<BackupInfo>)
    ensures DistinctIds(backups) ==> DistinctIds(Ranked(backups))
    ensures DistinctTimes(backups) ==> DistinctTimes(Ranked(backups))
  {
    if backups != [] {
      var b, tail := backups[0], backups[1..];
      RankedDistinct(tail);
      RankedProperties(tail);
      RankedCons(backups);
      assert forall k :: 0 <= k < |tail| ==> tail[k] == backups[k + 1];
      if DistinctIds(backups) {
        InsertKeepsDistinctIds(b, Ranked(tail));
      }
      if DistinctTimes(backups) {
        InsertKeepsDistinctTimes(b, Ranked(tail));
      }
    }
  }

  /** The kept and the removed part of a list of distinct backups share nothing. */
  lemma SplitDisjoint(r: seq<BackupInfo>, keep: nat)
    requires DistinctIds(r) && keep <= |r|
    ensures forall b :: b in r[..keep] ==> b !in r[keep..]
    ensures forall b :: b in r <==> b in r[..keep] || b in r[keep..]
  {
    assert r == r[..keep] + r[keep..];
    assert forall i, j :: 0 <= i < keep && 0 <= j < |r| - keep ==> r[..keep][i].id != r[keep..][j].id;
  }

  /** Every place of the ranking is the rank of some regular pg_dump backup. */
  lemma {:induction false} RankedHasRank(backups: seq<BackupInfo>, k: nat) returns (i: nat)
    requires k < |Ranked(backups)|
    ensures i < |backups| && backups[i].kind == Regular && backups[i].format == PgCustom
    ensures Rank(backups, i) == k && Ranked(backups)[k] == backups[i]
  {
    if backups == [] {
      assert false;
    }
    var b, tail := backups[0], backups[1..];
    RankedCons(backups);
    if !Prunable(b) {
      var j := RankedHasRank(tail, k);
      i := j + 1;
      RankShifts(backups, i);
    } else {
      var p := NewerThan(Ranked(tail), b.createdAt);
      InsertPlaces(b, Ranked(tail));
      if k == p {
        i := 0;
        RankOfHead(backups);
      } else {
        var j := RankedHasRank(tail, Origin(p, k));
        i := j + 1;
        RankShifts(backups, i);
        RankedSorted(tail);
        ShiftedPlace(b, Ranked(tail), k);
      }
    }
  }

  lemma RankOfHead(backups: seq<BackupInfo>)
    requires backups != []
    ensures Rank(backups, 0) == NewerThan(Ranked(backups[1..]), backups[0].createdAt)
  {
    CountAheadOfHead(backups, |backups|);
    assert backups[1..|backups|] == backups[1..];
    HeadRank(backups[1..], backups[0].createdAt);
  }

  /** An entry of an insertion came from one place further ahead exactly when it is not newer. */
  lemma ShiftedPlace(b: BackupInfo, sorted: seq<BackupInfo>, k: nat)
    requires NewestFirst(sorted) && k <= |sorted| && k != NewerThan(sorted, b.createdAt)
    ensures var j := Origin(NewerThan(sorted, b.createdAt), k);
            j < |sorted| && k == if b.createdAt >= sorted[j].createdAt then j + 1 else j
  {
  }

  /** The k-th candidate is the regular pg_dump backup of rank `keep + k`. */
  lemma CandidateHasRank(backups: seq<BackupInfo>, keep: nat, k: nat) returns (i: nat)
    requires k < |RetentionCandidates(backups, keep)|
    ensures i < |backups| && backups[i].kind == Regular && backups[i].format == PgCustom
    ensures Rank(backups, i) == keep + k && RetentionCandidates(backups, keep)[k] == backups[i]
  {
    i := RankedHasRank(backups, keep + k);
  }

  /** Conversely every regular pg_dump backup of rank `keep` or more is the candidate at that place. */
  lemma CandidateAtRank(backups: seq<BackupInfo>, keep: nat, i: nat)
    requires i < |backups| && backups[i].kind == Regular && backups[i].format == PgCustom
    requires Rank(backups, i) >= keep
    ensures Rank(backups, i) - keep < |RetentionCandidates(backups, keep)|
    ensures RetentionCandidates(backups, keep)[Rank(backups, i) - keep] == backups[i]
  {
    RankedAtRank(backups, i);
  }

  /** Only regular pg_dump backups are ever chosen. */
  lemma CandidatesAreRegularDumps(backups: seq<BackupInfo>, keep: nat, b: BackupInfo)
    requires b in RetentionCandidates(backups, keep)
    ensures b in backups && b.kind == Regular && b.format == PgCustom
  {
    var k :| 0 <= k < |RetentionCandidates(backups, keep)| && RetentionCandidates(backups, keep)[k] == b;
    var i := CandidateHasRank(backups, keep, k);
  }

  /** A backup is removed exactly when it is a regular pg_dump backup and at least `keep` such backups
      come ahead of it. */
  lemma CandidateIffRank(backups: seq<BackupInfo>, keep: nat, i: nat)
    requires i < |backups| && DistinctIds(backups)
    ensures backups[i] in RetentionCandidates(backups, keep) <==>
              backups[i].kind == Regular && backups[i].format == PgCustom && Rank(backups, i) >= keep
  {
    var r := Ranked(backups);
    RankedProperties(backups);
    RankedDistinct(backups);
    if Prunable(backups[i]) && keep < |r| {
      RankedAtRank(backups, i);
      SplitDisjoint(r, keep);
      var k := Rank(backups, i);
      if k >= keep {
        assert r[keep..][k - keep] == backups[i];
      } else {
        assert r[..keep][k] == backups[i];
      }
    } else if Prunable(backups[i]) {
      RankedAtRank(backups, i);
    }
  }

  /** Size and order of the removed part: max(0, n - keep) backups, none newer than a kept one. */
  lemma CandidatesAreOldest(backups: seq<BackupInfo>, keep: nat)
    ensures |RetentionCandidates(backups, keep)|
         == if |PrunableOf(backups)| > keep then |PrunableOf(backups)| - keep else 0
    ensures NewestFirst(RetentionCandidates(backups, keep))
    ensures forall b :: b in RetentionCandidates(backups, keep) ==> b in backups && Prunable(b)
    ensures DistinctIds(backups) ==>
              forall b, c | b in backups && Prunable(b) && b !in RetentionCandidates(backups, keep)
                            && c in RetentionCandidates(backups, keep) ::
                b.createdAt >= c.createdAt
  {
    RankedProperties(backups);
    forall b, c | DistinctIds(backups) && b in backups && Prunable(b) && b !in RetentionCandidates(backups, keep)
                  && c in RetentionCandidates(backups, keep)
      ensures b.createdAt >= c.createdAt
    {
      KeptIsNewer(backups, keep, b, c);
    }
  }

  lemma KeptIsNewer(backups: seq<BackupInfo>, keep: nat, b: BackupInfo, c: BackupInfo)
    requires DistinctIds(backups) && b in backups && Prunable(b) && b !in RetentionCandidates(backups, keep)
    requires c in RetentionCandidates(backups, keep)
    ensures b.createdAt >= c.createdAt
  {
    var r := Ranked(backups);
    RankedMembers(backups, b);
    RankedDistinct(backups);
    RankedSorted(backups);
    SplitDisjoint(r, keep);
    var i :| 0 <= i < keep && r[..keep][i] == b;
    var j :| 0 <= j < |r| - keep && r[keep..][j] == c;
  }

  /** A larger `keep` removes a suffix of what a smaller one removes. */
  lemma LargerKeepIsSuffix(backups: seq<BackupInfo>, keep: nat, more: nat)
    ensures var some, fewer := RetentionCandidates(backups, keep), RetentionCandidates(backups, keep + more);
            |fewer| <= |some| && fewer == some[|some| - |fewer|..]
  {
  }

  // ---------- Partial deletions and repair ----------

  /** The listing after the backups in `gone` were deleted. */
  function Without(backups: seq<BackupInfo>, gone: set<BackupInfo>): seq<BackupInfo> {
    if backups == [] then []
    else (if backups[0] in gone then [] else [backups[0]]) + Without(backups[1..], gone)
  }

  lemma {:induction false} WithoutConcat(xs: seq<BackupInfo>, ys: seq<BackupInfo>, gone: set<BackupInfo>)
    ensures Without(xs + ys, gone) == Without(xs, gone) + Without(ys, gone)
  {
    if xs == [] {
      assert xs + ys == ys;
    } else {
      assert (xs + ys)[1..] == xs[1..] + ys;
      WithoutConcat(xs[1..], ys, gone);
    }
  }

  lemma {:induction false} WithoutMembers(xs: seq<BackupInfo>, gone: set<BackupInfo>)
    ensures forall b :: b in Without(xs, gone) <==> b in xs && b !in gone
  {
    if xs != [] {
      WithoutMembers(xs[1..], gone);
      assert forall b :: b in xs <==> b == xs[0] || b in xs[1..];
    }
  }

  lemma {:induction false} WithoutNone(xs: seq<BackupInfo>, gone: set<BackupInfo>)
    requires forall b :: b in xs ==> b !in gone
    ensures Without(xs, gone) == xs
  {
    if xs != [] {
      WithoutNone(xs[1..], gone);
    }
  }

  lemma {:induction false} WithoutAll(xs: seq<BackupInfo>, gone: set<BackupInfo>)
    requires forall b :: b in xs ==> b in gone
    ensures Without(xs, gone) == []
  {
    if xs != [] {
      WithoutAll(xs[1..], gone);
    }
  }

  lemma {:induction false} InsertWithout(b: BackupInfo, sorted: seq<BackupInfo>, gone: set<BackupInfo>)
    requires NewestFirst(sorted)
    ensures Without(InsertNewest(b, sorted), gone)
         == if b in gone then Without(sorted, gone) else InsertNewest(b, Without(sorted, gone))
  {
    if sorted == [] || sorted[0].createdAt <= b.createdAt {
      assert ([b] + sorted)[1..] == sorted;
      WithoutMembers(sorted, gone);
      var rest := Without(sorted, gone);
      assert rest != [] ==> rest[0] in rest;
    } else {
      var head, tail := sorted[0], sorted[1..];
      assert ([head] + InsertNewest(b, tail))[1..] == InsertNewest(b, tail);
      InsertWithout(b, tail, gone);
      var rest := Without(tail, gone);
      if head !in gone {
        assert Without(sorted, gone) == [head] + rest;
        assert ([head] + rest)[1..] == rest;
        assert InsertNewest(b, [head] + rest) == [head] + InsertNewest(b, rest);
      } else {
        assert Without(sorted, gone) == rest;
      }
    }
  }

  /** Stable sorting commutes with deletion. */
  lemma {:induction false} RankedWithout(backups: seq<BackupInfo>, gone: set<BackupInfo>)
    ensures Ranked(Without(backups, gone)) == Without(Ranked(backups), gone)
  {
    if backups != [] {
      var b, tail := backups[0], backups[1..];
      RankedWithout(tail, gone);
      RankedSorted(tail);
      RankedCons(backups);
      InsertWithout(b, Ranked(tail), gone);
      var rest := Without(tail, gone);
      if b !in gone {
        assert Without(backups, gone) == [b] + rest;
        assert ([b] + rest)[0] == b && ([b] + rest)[1..] == rest;
        RankedCons([b] + rest);
      } else {
        assert Without(backups, gone) == rest;
      }
    }
  }

  /** Repair: whatever subset of the candidates was really deleted, the next retention run
      picks exactly the candidates that are left, so a fully successful run clears the backlog. */
  lemma RetentionResumes(backups: seq<BackupInfo>, keep: nat, gone: set<BackupInfo>)
    requires DistinctIds(backups)
    requires forall b :: b in gone ==> b in RetentionCandidates(backups, keep)
    ensures RetentionCandidates(Without(backups, gone), keep) == Without(RetentionCandidates(backups, keep), gone)
    ensures (forall b :: b in RetentionCandidates(backups, keep) ==> b in gone) ==>
              RetentionCandidates(Without(backups, gone), keep) == []
  {
    var r := Ranked(backups);
    RankedWithout(backups, gone);
    RankedDistinct(backups);
    if keep < |r| {
      var kept, cut := r[..keep], r[keep..];
      assert r == kept + cut;
      WithoutConcat(kept, cut, gone);
      SplitDisjoint(r, keep);
      WithoutNone(kept, gone);
    } else {
      WithoutNone(r, gone);
    }
    if forall b :: b in RetentionCandidates(backups, keep) ==> b in gone {
      WithoutAll(RetentionCandidates(backups, keep), gone);
    }
  }

  // ---------- Independence of the listing order ----------

  lemma HasMember(xs: seq<BackupInfo>)
    ensures xs != [] ==> exists b :: b in xs
  {
    if xs != [] {
      assert xs[0] in xs;
    }
  }

  lemma TailMember(xs: seq<BackupInfo>, ys: seq<BackupInfo>, b: BackupInfo)
    requires xs != [] && ys != [] && xs[0] == ys[0] && DistinctTimes(xs)
    requires b in xs[1..] && b in ys
    ensures b in ys[1..]
  {
    var k :| 0 <= k < |xs[1..]| && xs[1..][k] == b;
    assert b == xs[k + 1] && b != xs[0];
    var m :| 0 <= m < |ys| && ys[m] == b;
    assert ys[1..][m - 1] == b;
  }

  lemma SameHead(xs: seq<BackupInfo>, ys: seq<BackupInfo>)
    requires NewestFirst(xs) && NewestFirst(ys) && DistinctTimes(ys)
    requires xs != [] && ys != [] && xs[0] in ys && ys[0] in xs
    ensures xs[0] == ys[0]
  {
    var i :| 0 <= i < |ys| && ys[i] == xs[0];
    var j :| 0 <= j < |xs| && xs[j] == ys[0];
    assert i == 0;
  }

  lemma {:induction false} StrictOrderUnique(xs: seq<BackupInfo>, ys: seq<BackupInfo>)
    requires NewestFirst(xs) && NewestFirst(ys) && DistinctTimes(xs) && DistinctTimes(ys)
    requires forall b :: b in xs <==> b in ys
    ensures xs == ys
  {
    if xs == [] || ys == [] {
      HasMember(xs);
      HasMember(ys);
    } else {
      SameHead(xs, ys);
      forall b ensures b in xs[1..] <==> b in ys[1..] {
        if b in xs[1..] {
          TailMember(xs, ys, b);
        }
        if b in ys[1..] {
          TailMember(ys, xs, b);
        }
      }
      StrictOrderUnique(xs[1..], ys[1..]);
    }
  }

  /** With distinct creation times the answer does not depend on the order of the listing. */
  lemma OrderIndependent(backups: seq<BackupInfo>, other: seq<BackupInfo>, keep: nat)
    requires DistinctTimes(backups) && DistinctTimes(other)
    requires forall b :: b in backups <==> b in other
    ensures RetentionCandidates(backups, keep) == RetentionCandidates(other, keep)
  {
    RankedProperties(backups);
    RankedProperties(other);
    RankedDistinct(backups);
    RankedDistinct(other);
    StrictOrderUnique(Ranked(backups), Ranked(other));
  }

  lemma {:induction false} NoneAhead(backups: seq<BackupInfo>, i: nat, n: nat)
    requires i < |backups| && n <= |backups|
    requires forall j :: 0 <= j < n ==> !Ahead(backups, j, i)
    ensures CountAhead(backups, i, n) == 0
  {
    if n > 0 {
      NoneAhead(backups, i, n - 1);
    }
  }

  /** A backup newer than every other prunable one survives any positive `keep`. */
  lemma NewestSurvives(backups: seq<BackupInfo>, keep: nat, newest: BackupInfo)
    requires keep >= 1 && DistinctIds(backups)
    requires forall b :: b in backups && Prunable(b) && b != newest ==> b.createdAt < newest.createdAt
    ensures newest !in RetentionCandidates(backups, keep)
  {
    CandidatesAreOldest(backups, keep);
    if newest in backups {
      var i :| 0 <= i < |backups| && backups[i] == newest;
      forall j | 0 <= j < |backups| ensures !Ahead(backups, j, i) {
        if j != i {
          assert backups[j].id != backups[i].id;
        }
      }
      NoneAhead(backups, i, |backups|);
      CandidateIffRank(backups, keep, i);
    }
  }
}
