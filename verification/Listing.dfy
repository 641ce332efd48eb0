/** Paged listings. A storage answers page tokens; following the tokens gives a chain of pages that may
    end, break off or go round in circles. `list_all`, `latest` and `get` are shown to agree with simple
    definitions over the chain, and so over the whole folder. */
module Listing {
  import opened Core
  import opened Mapping
  import opened Query
  import opened Retrying
  import opened Retention

  const LATEST_MAX_PAGES: nat := 10

  function BackupOf(file: DriveFile): seq<BackupInfo> {
    match ToBackupInfo(file)
    case Success(info) => [info]
    case Failure(_) => []
  }

  /** The files that map to backups, in order; other files are skipped. */
  function Backups(files: seq<DriveFile>): seq<BackupInfo> {
    if files == [] then [] else BackupOf(files[0]) + Backups(files[1..])
  }

  lemma Regroup(a: seq<BackupInfo>, b: seq<BackupInfo>, c: seq<BackupInfo>)
    ensures a + (b + c) == (a + b) + c
  {
  }

  lemma {:induction false} BackupsConcat(a: seq<DriveFile>, b: seq<DriveFile>)
    ensures Backups(a + b) == Backups(a) + Backups(b)
  {
    if a == [] {
      assert a + b == b;
    } else {
      assert (a + b)[0] == a[0] && (a + b)[1..] == a[1..] + b;
      BackupsConcat(a[1..], b);
      Regroup(BackupOf(a[0]), Backups(a[1..]), Backups(b));
    }
  }

  /** How many of the first `n` files map. */
  function MappableBefore(files: seq<DriveFile>, n: nat): nat
    requires n <= |files|
  {
    if n == 0 then 0 else MappableBefore(files, n - 1) + (if ToBackupInfo(files[n - 1]).Success? then 1 else 0)
  }

  lemma BackupsSnoc(files: seq<DriveFile>, n: nat)
    requires 0 < n <= |files|
    ensures var last := ToBackupInfo(files[n - 1]);
            Backups(files[..n]) == Backups(files[..n - 1]) + (if last.Success? then [last.value] else [])
  {
    assert files[..n] == files[..n - 1] + [files[n - 1]];
    BackupsConcat(files[..n - 1], [files[n - 1]]);
    SingleBackup(files[n - 1]);
  }

  lemma {:induction false} BackupsCounted(files: seq<DriveFile>, n: nat)
    requires n <= |files|
    ensures |Backups(files[..n])| == MappableBefore(files, n)
  {
    if n > 0 {
      BackupsCounted(files, n - 1);
      BackupsSnoc(files, n);
    }
  }

  /** Skipping keeps the order: the i-th mappable file is the i-th backup, and there are no others. */
  lemma {:induction false} BackupsInOrder(files: seq<DriveFile>, n: nat, i: nat)
    requires i < n <= |files| && ToBackupInfo(files[i]).Success?
    ensures MappableBefore(files, i) < |Backups(files[..n])| == MappableBefore(files, n)
    ensures Backups(files[..n])[MappableBefore(files, i)] == ToBackupInfo(files[i]).value
  {
    BackupsCounted(files, n);
    BackupsCounted(files, n - 1);
    BackupsSnoc(files, n);
    if i < n - 1 {
      BackupsInOrder(files, n - 1, i);
    }
  }

  lemma SingleBackup(file: DriveFile)
    ensures Backups([file]) == if ToBackupInfo(file).Success? then [ToBackupInfo(file).value] else []
  {
    assert [file][1..] == [];
  }

  // ---------- Chains of pages ----------

  /** Pages may be short or empty. */
  datatype RawPage = RawPage(files: seq<DriveFile>, next: Option<string>)

  /** What Drive answers to each token, or nothing when it rejects the token. Any answers are possible. */
  type Pager = Option<string> -> Option<RawPage>

  /** A page without a token, or with an empty one, is the last. */
  predicate IsLast(page: RawPage) {
    page.next.None? || page.next.value == ""
  }

  /** The token that leads to page `k` of the chain, if the chain gets that far. */
  function TokenAt(pager: Pager, k: nat): Option<Option<string>>
    decreases k, 0
  {
    if k == 0 then Some(None)
    else
      match PageAt(pager, k - 1)
      case None => None
      case Some(page) => if IsLast(page) then None else Some(page.next)
  }

  function PageAt(pager: Pager, k: nat): Option<RawPage>
    decreases k, 1
  {
    match TokenAt(pager, k)
    case None => None
    case Some(token) => pager(token)
  }

  /** Page `n` is the last one of the chain. */
  predicate EndsAt(pager: Pager, n: nat) {
    PageAt(pager, n).Some? && IsLast(PageAt(pager, n).value)
  }

  function FilesAt(pager: Pager, k: nat): seq<DriveFile> {
    if PageAt(pager, k).Some? then PageAt(pager, k).value.files else []
  }

  /** The files on the first `n` pages, in order. */
  function Chain(pager: Pager, n: nat): seq<DriveFile> {
    if n == 0 then [] else Chain(pager, n - 1) + FilesAt(pager, n - 1)
  }

  /** After its last page a chain goes no further. */
  lemma {:induction false} NothingAfterEnd(pager: Pager, n: nat, k: nat)
    requires EndsAt(pager, n) && k > n
    ensures TokenAt(pager, k).None?
  {
    if k > n + 1 {
      NothingAfterEnd(pager, n, k - 1);
    }
  }

  /** So the whole listing of a chain that ends is what its pages up to the last hold. */
  lemma {:induction false} ChainStops(pager: Pager, n: nat, k: nat)
    requires EndsAt(pager, n) && k > n
    ensures Chain(pager, k) == Chain(pager, n + 1)
  {
    if k > n + 1 {
      ChainStops(pager, n, k - 1);
      NothingAfterEnd(pager, n, k - 1);
    }
  }

  lemma EndIsUnique(pager: Pager, m: nat, n: nat)
    requires EndsAt(pager, m) && EndsAt(pager, n)
    ensures m == n
  {
    if m < n {
      NothingAfterEnd(pager, m, n);
    } else if n < m {
      NothingAfterEnd(pager, n, m);
    }
  }

  /** A storage that answers every token with one and the same token never ends. */
  lemma {:induction false} SameTokenNeverEnds(pager: Pager, t: string, n: nat)
    requires t != "" && forall token :: pager(token).Some? && pager(token).value.next == Some(t)
    ensures TokenAt(pager, n).Some? && !EndsAt(pager, n)
  {
    if n > 0 {
      SameTokenNeverEnds(pager, t, n - 1);
    }
  }

  // ---------- Listings cut into pages ----------

  function Flatten(pages: seq<seq<DriveFile>>): seq<DriveFile> {
    if pages == [] then [] else pages[0] + Flatten(pages[1..])
  }

  lemma {:induction false} FlattenAppend(pages: seq<seq<DriveFile>>, page: seq<DriveFile>)
    ensures Flatten(pages + [page]) == Flatten(pages) + page
  {
    if pages == [] {
      assert pages + [page] == [page];
      assert Flatten([page]) == page + Flatten([]);
    } else {
      assert (pages + [page])[1..] == pages[1..] + [page];
      FlattenAppend(pages[1..], page);
    }
  }

  function IndexOf(tokens: seq<string>, t: string): (i: nat)
    ensures i <= |tokens| && (i < |tokens| ==> tokens[i] == t)
    ensures forall k :: 0 <= k < i ==> tokens[k] != t
  {
    if tokens == [] || tokens[0] == t then 0 else 1 + IndexOf(tokens[1..], t)
  }

  /** A listing cut into pages: `tokens[i]` leads from page i to page i + 1. */
  function Paged(pages: seq<seq<DriveFile>>, tokens: seq<string>): Pager
    requires |tokens| + 1 == |pages|
  {
    (token: Option<string>) =>
      var i := if token.None? then 0 else IndexOf(tokens, token.value) + 1;
      if i < |pages| then Some(RawPage(pages[i], if i < |tokens| then Some(tokens[i]) else None)) else None
  }

  /** With distinct tokens the chain of a paged listing is the listing. */
  lemma {:induction false} PagedChain(pages: seq<seq<DriveFile>>, tokens: seq<string>, n: nat)
    requires |tokens| + 1 == |pages| && n < |pages|
    requires forall i :: 0 <= i < |tokens| ==> tokens[i] != ""
    requires forall i, j :: 0 <= i < j < |tokens| ==> tokens[i] != tokens[j]
    ensures TokenAt(Paged(pages, tokens), n) == Some(if n == 0 then None else Some(tokens[n - 1]))
    ensures PageAt(Paged(pages, tokens), n) == Some(RawPage(pages[n], if n < |tokens| then Some(tokens[n]) else None))
    ensures Chain(Paged(pages, tokens), n + 1) == Flatten(pages[..n + 1])
    ensures EndsAt(Paged(pages, tokens), n) <==> n == |pages| - 1
  {
    if n > 0 {
      PagedChain(pages, tokens, n - 1);
      assert IndexOf(tokens, tokens[n - 1]) == n - 1;
    } else {
      assert pages[..0] == [];
    }
    assert pages[..n + 1] == pages[..n] + [pages[n]];
    FlattenAppend(pages[..n], pages[n]);
  }

  // ---------- Calls over the network ----------

  /** The network's part in one call: some failure, or none. */
  type Faults = nat -> Option<CallError>

  /** What Drive answers to a token. */
  function Fetch(pager: Pager, token: Option<string>): CallResult<Page<BackupInfo>> {
    match pager(token)
    case Some(page) => Ok(Page(Backups(page.files), page.next))
    case None => Err(ClassifyStatus(400, None, "invalid page token"))
  }

  /** The replies of the listing call for one token. A client that supplied the token is blamed for a
      bad request. */
  function ListReplies(pager: Pager, token: Option<string>, faults: Faults, blameClient: bool)
    : nat -> CallResult<Page<BackupInfo>>
  {
    (k: nat) =>
      var reply := if faults(k).Some? then Err(faults(k).value) else Fetch(pager, token);
      if reply.Err? && reply.error.BadRequest? && blameClient && token.Some?
      then Err(Permanent(InvalidArgument("invalid page_token"))) else reply
  }

  /** One page for a client: the page its token stands for, and a token the storage rejects is the
      client's mistake, not the storage's. */
  method List(policy: RetryPolicy, pager: Pager, token: Option<string>, faults: Faults)
    returns (result: Result<Page<BackupInfo>>)
    ensures result.Success? ==>
              pager(token).Some? && result.value == Page(Backups(pager(token).value.files), pager(token).value.next)
    ensures pager(token).Some? && (forall k :: faults(k).None?) ==> result.Success?
    ensures token.Some? && pager(token).None? && (forall k :: faults(k).None?) ==>
              result == Failure(InvalidArgument("invalid page_token"))
    ensures pager(None).None? && token.None? && (forall k :: faults(k).None?) ==>
              result.Failure? && result.error.Storage?
  {
    var calls, sleeps;
    result, calls, sleeps := Retry(policy, ListReplies(pager, token, faults, true));
    assert faults(calls - 1).None? ==>
        ListReplies(pager, token, faults, true)(calls - 1)
        == if pager(token).None? && token.Some? then Err(Permanent(InvalidArgument("invalid page_token")))
           else Fetch(pager, token);
  }

  /** The storage port as a caller sees it: the k-th call with some token. */
  type ListPort = (nat, Option<string>) -> Result<Page<BackupInfo>>

  /** The port may fail, but a page it returns for a token is the page the storage has for it. */
  ghost predicate Serves(list: ListPort, pager: Pager) {
    forall k: nat, token :: list(k, token).Success? ==>
      && pager(token).Some?
      && list(k, token).value == Page(Backups(pager(token).value.files), pager(token).value.next)
  }

  /** The port over the network, with retries. */
  function Retried(policy: RetryPolicy, pager: Pager, faults: nat -> Faults, blameClient: bool): ListPort {
    (k: nat, token: Option<string>) => RetryResult(policy, ListReplies(pager, token, faults(k), blameClient))
  }

  /** Whatever the retries went through, a listed page is the page its token stands for. */
  lemma RetriedPage(policy: RetryPolicy, pager: Pager, token: Option<string>, faults: Faults, blameClient: bool)
    requires RetryResult(policy, ListReplies(pager, token, faults, blameClient)).Success?
    ensures pager(token).Some?
    ensures RetryResult(policy, ListReplies(pager, token, faults, blameClient))
         == Success(Page(Backups(pager(token).value.files), pager(token).value.next))
  {
    var replies := ListReplies(pager, token, faults, blameClient);
    var k := LastCall(policy, replies);
    assert replies(k).Ok? && faults(k).None?;
    assert replies(k) == Fetch(pager, token);
  }

  lemma RetriedServes(policy: RetryPolicy, pager: Pager, faults: nat -> Faults, blameClient: bool)
    ensures Serves(Retried(policy, pager, faults, blameClient), pager)
  {
    var list := Retried(policy, pager, faults, blameClient);
    forall k: nat, token | list(k, token).Success?
      ensures pager(token).Some?
      ensures list(k, token).value == Page(Backups(pager(token).value.files), pager(token).value.next)
    {
      assert list(k, token) == RetryResult(policy, ListReplies(pager, token, faults(k), blameClient));
      RetriedPage(policy, pager, token, faults(k), blameClient);
    }
  }

  /** Page `k` of the chain exists as far as the token goes, and the port returned it. */
  predicate PageServed(list: ListPort, pager: Pager, k: nat) {
    TokenAt(pager, k).Some? && list(k, TokenAt(pager, k).value).Success?
  }

  predicate ServedUpTo(list: ListPort, pager: Pager, n: nat) {
    forall k :: 0 <= k < n ==> PageServed(list, pager, k)
  }

  /** A page the port returned carries the chain on. */
  lemma PortServes(list: ListPort, pager: Pager, i: nat)
    requires (Serves(list, pager) <==> true) && PageServed(list, pager, i)
    ensures PageAt(pager, i).Some?
    ensures list(i, TokenAt(pager, i).value).value == Page(Backups(FilesAt(pager, i)), PageAt(pager, i).value.next)
    ensures Backups(Chain(pager, i + 1)) == Backups(Chain(pager, i)) + Backups(FilesAt(pager, i))
    ensures TokenAt(pager, i + 1)
         == if IsLast(PageAt(pager, i).value) then None else Some(PageAt(pager, i).value.next)
  {
    BackupsConcat(Chain(pager, i), FilesAt(pager, i));
  }

  // ---------- list_all ----------

  /** The chain ends with page `n`, within the cap, and every page was served. */
  predicate Complete(list: ListPort, pager: Pager, cap: nat, n: nat) {
    n < cap && EndsAt(pager, n) && ServedUpTo(list, pager, n + 1)
  }

  /** All-or-nothing: success exactly when some page completes the chain, and then the whole listing. */
  ghost predicate AllOrNothing(list: ListPort, pager: Pager, cap: nat, result: Result<seq<BackupInfo>>) {
    && (result.Success? <==> exists n: nat :: Complete(list, pager, cap, n))
    && (forall n: nat :: Complete(list, pager, cap, n) ==> result == Success(Backups(Chain(pager, n + 1))))
  }

  lemma Unserved(list: ListPort, pager: Pager, cap: nat, i: nat, error: Error)
    requires TokenAt(pager, i).Some? && !PageServed(list, pager, i)
    ensures AllOrNothing(list, pager, cap, Failure(error)) <==> true
  {
    forall n: nat ensures !Complete(list, pager, cap, n) {
      if n < i && EndsAt(pager, n) {
        NothingAfterEnd(pager, n, i);
      }
    }
  }

  lemma TooLong(list: ListPort, pager: Pager, cap: nat, error: Error)
    requires TokenAt(pager, cap).Some?
    ensures AllOrNothing(list, pager, cap, Failure(error)) <==> true
  {
    forall n: nat ensures !Complete(list, pager, cap, n) {
      if n < cap && EndsAt(pager, n) {
        NothingAfterEnd(pager, n, cap);
      }
    }
  }

  lemma Completed(list: ListPort, pager: Pager, cap: nat, n: nat)
    requires Complete(list, pager, cap, n)
    ensures AllOrNothing(list, pager, cap, Success(Backups(Chain(pager, n + 1)))) <==> true
  {
    forall m: nat | Complete(list, pager, cap, m) ensures m == n {
      EndIsUnique(pager, m, n);
    }
  }

  /** One more page, and the chain is complete or goes on. */
  lemma NextPage(list: ListPort, pager: Pager, cap: nat, k: nat)
    requires (Serves(list, pager) <==> true) && ServedUpTo(list, pager, k) && PageServed(list, pager, k) && k < cap
    ensures PageAt(pager, k).Some?
    ensures var page := list(k, TokenAt(pager, k).value).value;
            && page.nextPageToken == PageAt(pager, k).value.next
            && Backups(Chain(pager, k + 1)) == Backups(Chain(pager, k)) + page.items
    ensures TokenAt(pager, k + 1)
         == if IsLast(PageAt(pager, k).value) then None else Some(PageAt(pager, k).value.next)
    ensures ServedUpTo(list, pager, k + 1) <==> true
    ensures IsLast(PageAt(pager, k).value) ==> Complete(list, pager, cap, k)
  {
    PortServes(list, pager, k);
  }

  /** The loop: it comes to the last page, to a page that is not served, or to the cap. */
  method Walk(list: ListPort, ghost pager: Pager, cap: nat) returns (result: Result<seq<BackupInfo>>, ghost i: nat)
    requires Serves(list, pager) <==> true
    ensures result.Success? ==> Complete(list, pager, cap, i) && result.value == Backups(Chain(pager, i + 1))
    ensures result.Failure? ==> TokenAt(pager, i).Some? && (i == cap || !PageServed(list, pager, i))
  {
    var all: seq<BackupInfo>, token, k := [], None, 0;
    while k < cap
      invariant 0 <= k <= cap && TokenAt(pager, k) == Some(token)
      invariant all == Backups(Chain(pager, k))
      invariant ServedUpTo(list, pager, k) <==> true
    {
      var page := list(k, token);
      if page.Failure? {
        return Failure(page.error), k;
      }
      NextPage(list, pager, cap, k);
      all := all + page.value.items;
      token := page.value.nextPageToken;
      if token.None? || token.value == "" {
        return Success(all), k;
      }
      k := k + 1;
    }
    return Failure(Storage("more than 100 pages of backups")), k;
  }

  /** All-or-nothing over every storage: success exactly when the chain of tokens ends within `cap`
      pages and every page was served, and then the result is the whole listing in order, nothing missing
      and nothing twice. A chain that goes on, or round in circles, is an error. */
  method CollectPages(list: ListPort, ghost pager: Pager, cap: nat) returns (result: Result<seq<BackupInfo>>)
    requires Serves(list, pager) <==> true
    ensures AllOrNothing(list, pager, cap, result) <==> true
  {
    ghost var i;
    result, i := Walk(list, pager, cap);
    if result.Success? {
      Completed(list, pager, cap, i);
    } else if i == cap {
      TooLong(list, pager, cap, result.error);
    } else {
      Unserved(list, pager, cap, i, result.error);
    }
  }

  method ListAll(policy: RetryPolicy, pager: Pager, faults: nat -> Faults) returns (result: Result<seq<BackupInfo>>)
    ensures MAX_RETENTION_PAGES == 100
    ensures AllOrNothing(Retried(policy, pager, faults, true), pager, MAX_RETENTION_PAGES, result)
  {
    RetriedServes(policy, pager, faults, true);
    result := CollectPages(Retried(policy, pager, faults, true), pager, MAX_RETENTION_PAGES);
  }

  /** So a storage whose tokens go round in circles is always refused. */
  lemma EndlessIsRefused(list: ListPort, pager: Pager, cap: nat, result: Result<seq<BackupInfo>>)
    requires AllOrNothing(list, pager, cap, result) && forall n: nat :: !EndsAt(pager, n)
    ensures result.Failure?
  {
  }

  // ---------- latest ----------

  const NONE_AMONG_NEWEST := FailedPrecondition("no backup among the newest 100 files in the folder")

  /** The simple form: the first backup on the first `cap` pages of the chain. */
  function LatestOf(pager: Pager, cap: nat): Result<Option<BackupInfo>> {
    var found := Backups(Chain(pager, cap));
    if found != [] then Success(Some(found[0]))
    else if exists n :: 0 <= n < cap && EndsAt(pager, n) then Success(None)
    else Failure(NONE_AMONG_NEWEST)
  }

  predicate NothingOn(pager: Pager, n: nat) {
    Backups(Chain(pager, n)) == []
  }

  /** Page `i` was not served although no earlier page held a backup. */
  predicate StopsAt(list: ListPort, pager: Pager, cap: nat, i: nat, error: Error) {
    && i < cap && TokenAt(pager, i).Some? && list(i, TokenAt(pager, i).value) == Failure(error)
    && NothingOn(pager, i)
  }

  /** The result is the error of the first page that was not served. */
  ghost predicate Stopped(list: ListPort, pager: Pager, cap: nat, result: Result<Option<BackupInfo>>) {
    result.Failure? && exists i :: StopsAt(list, pager, cap, i, result.error)
  }

  lemma StoppedAt(list: ListPort, pager: Pager, cap: nat, i: nat, error: Error)
    requires StopsAt(list, pager, cap, i, error)
    ensures Stopped(list, pager, cap, Failure(error)) <==> true
  {
  }

  /** The simple form's answer; it gives up only when there is a further token. */
  predicate AnswersLatest(pager: Pager, cap: nat, result: Result<Option<BackupInfo>>) {
    result == LatestOf(pager, cap) && (result.Failure? ==> TokenAt(pager, cap).Some?)
  }

  /** `latest` reads pages until one holds a backup. Every answer it gives is the simple form's answer,
      and the only other outcome is the error of the first page that was not served. */
  method FirstBackup(list: ListPort, ghost pager: Pager, cap: nat) returns (result: Result<Option<BackupInfo>>)
    requires Serves(list, pager) <==> true
    ensures AnswersLatest(pager, cap, result) || Stopped(list, pager, cap, result)
  {
    var token, i := None, 0;
    while i < cap
      invariant 0 <= i <= cap && TokenAt(pager, i) == Some(token)
      invariant NothingOn(pager, i) <==> true
    {
      var page := list(i, token);
      if page.Failure? {
        StoppedAt(list, pager, cap, i, page.error);
        return Failure(page.error);
      }
      PortServes(list, pager, i);
      if page.value.items != [] {
        FirstFound(pager, cap, i);
        return Success(Some(page.value.items[0]));
      }
      StillNothing(pager, i);
      token := page.value.nextPageToken;
      if token.None? || token.value == "" {
        NoneFound(pager, cap, i);
        return Success(None);
      }
      i := i + 1;
    }
    GivesUp(pager, cap);
    return Failure(NONE_AMONG_NEWEST);
  }

  lemma StillNothing(pager: Pager, i: nat)
    requires NothingOn(pager, i) && Backups(FilesAt(pager, i)) == []
    ensures NothingOn(pager, i + 1) <==> true
  {
    BackupsConcat(Chain(pager, i), FilesAt(pager, i));
  }

  /** The backups on the first pages stay in front of those on later ones. */
  lemma {:induction false} ChainGrows(pager: Pager, n: nat, m: nat) returns (rest: seq<BackupInfo>)
    requires n <= m
    ensures Backups(Chain(pager, m)) == Backups(Chain(pager, n)) + rest
  {
    if n == m {
      rest := [];
    } else {
      var front := ChainGrows(pager, n, m - 1);
      BackupsConcat(Chain(pager, m - 1), FilesAt(pager, m - 1));
      Regroup(Backups(Chain(pager, n)), front, Backups(FilesAt(pager, m - 1)));
      rest := front + Backups(FilesAt(pager, m - 1));
    }
  }

  lemma FirstFound(pager: Pager, cap: nat, i: nat)
    requires i < cap && NothingOn(pager, i) && Backups(FilesAt(pager, i)) != []
    ensures AnswersLatest(pager, cap, Success(Some(Backups(FilesAt(pager, i))[0])))
  {
    BackupsConcat(Chain(pager, i), FilesAt(pager, i));
    var rest := ChainGrows(pager, i + 1, cap);
  }

  lemma NoneFound(pager: Pager, cap: nat, i: nat)
    requires i < cap && NothingOn(pager, i + 1) && EndsAt(pager, i)
    ensures AnswersLatest(pager, cap, Success(None))
  {
    ChainStops(pager, i, cap);
  }

  lemma GivesUp(pager: Pager, cap: nat)
    requires NothingOn(pager, cap) && TokenAt(pager, cap).Some?
    ensures AnswersLatest(pager, cap, Failure(NONE_AMONG_NEWEST))
  {
    forall n | 0 <= n < cap ensures !EndsAt(pager, n) {
      if EndsAt(pager, n) {
        NothingAfterEnd(pager, n, cap);
      }
    }
  }

  method LatestBackup(policy: RetryPolicy, pager: Pager, faults: nat -> Faults)
    returns (result: Result<Option<BackupInfo>>)
    ensures LATEST_MAX_PAGES == 10
    ensures AnswersLatest(pager, LATEST_MAX_PAGES, result)
         || Stopped(Retried(policy, pager, faults, false), pager, LATEST_MAX_PAGES, result)
  {
    RetriedServes(policy, pager, faults, false);
    result := FirstBackup(Retried(policy, pager, faults, false), pager, LATEST_MAX_PAGES);
  }

  /** In terms of the whole chain, however far it is followed: a found backup is the first of all,
      "none" means that the chain ends and holds none, and giving up means that the pages read hold none. */
  lemma LatestOverWholeFolder(pager: Pager, cap: nat, m: nat)
    requires m >= cap
    ensures match LatestOf(pager, cap)
            case Success(Some(b)) => Backups(Chain(pager, m)) != [] && b == Backups(Chain(pager, m))[0]
            case Success(None) => NothingOn(pager, m) && exists n :: 0 <= n < cap && EndsAt(pager, n)
            case Failure(_) => NothingOn(pager, cap)
                               && forall n :: 0 <= n < cap ==> !EndsAt(pager, n)
  {
    var rest := ChainGrows(pager, cap, m);
    if n :| 0 <= n < cap && EndsAt(pager, n) {
      ChainStops(pager, n, m);
      ChainStops(pager, n, cap);
    }
  }

  /** The order the service asks Drive for. */
  predicate NewestFirst(files: seq<DriveFile>) {
    forall i, j :: 0 <= i < j < |files| && files[i].createdTime.Some? && files[j].createdTime.Some? ==>
      files[i].createdTime.value >= files[j].createdTime.value
  }

  lemma {:induction false} FirstIsNewest(files: seq<DriveFile>, b: BackupInfo)
    requires NewestFirst(files) && b in Backups(files)
    ensures b.createdAt <= Backups(files)[0].createdAt
  {
    var k := BackupComesFromFile(files, b);
    MapsExactlyWhen(files[k], b);
    if ToBackupInfo(files[0]).Success? {
      MapsExactlyWhen(files[0], ToBackupInfo(files[0]).value);
    } else {
      FirstIsNewest(files[1..], b);
    }
  }

  /** So over a chain sorted as requested, a found backup is a newest one of all. */
  lemma LatestIsNewest(pager: Pager, cap: nat, m: nat, b: BackupInfo)
    requires m >= cap && NewestFirst(Chain(pager, m)) && b in Backups(Chain(pager, m))
    ensures LatestOf(pager, cap).Success? ==>
              LatestOf(pager, cap).value.Some? && b.createdAt <= LatestOf(pager, cap).value.value.createdAt
  {
    LatestOverWholeFolder(pager, cap, m);
    FirstIsNewest(Chain(pager, m), b);
  }

  // ---------- get ----------

  /** What Drive answers about one file. */
  function FileReply(files: map<string, Stored>, id: string): CallResult<DriveFile> {
    if id in files then Ok(files[id].meta) else Err(ClassifyStatus(404, None, "not found"))
  }

  function GetResult(files: map<string, Stored>, folder: string, id: string): Result<BackupInfo> {
    if id in files && IsInFolder(files[id].meta, folder) then ToBackupInfo(files[id].meta)
    else Failure(NotFound("backup"))
  }

  function GetReplies(files: map<string, Stored>, id: string, faults: Faults): nat -> CallResult<DriveFile> {
    (k: nat) => if faults(k).Some? then Err(faults(k).value) else FileReply(files, id)
  }

  /** `get` answers what the folder says once the network lets the call through, and treats a file
      outside the folder, a trashed one and a missing one alike. */
  method Get(policy: RetryPolicy, files: map<string, Stored>, folder: string, id: string, faults: Faults)
    returns (result: Result<BackupInfo>)
    ensures var last := LastCall(policy, GetReplies(files, id, faults));
            if faults(last).Some? then result == Failure(faults(last).value.IntoError())
            else result.Success? <==> GetResult(files, folder, id).Success?
    ensures result.Success? ==>
              && id in files && result == ToBackupInfo(files[id].meta)
              && files[id].meta.trashed != Some(true)
              && files[id].meta.parents.Some? && folder in files[id].meta.parents.value
    ensures result.Success? ==> result == GetResult(files, folder, id)
    ensures (forall k :: faults(k).None?)
            && (id !in files || files[id].meta.trashed == Some(true) || files[id].meta.parents.None?
                || folder !in files[id].meta.parents.value) ==>
              result.Failure? && result.error.NotFound?
    ensures (forall k :: faults(k).None?) && id in files && files[id].meta.trashed != Some(true)
            && files[id].meta.parents.Some? && folder in files[id].meta.parents.value ==>
              result == ToBackupInfo(files[id].meta)
    ensures (forall k :: faults(k).None?) && GetResult(files, folder, id) == Failure(NotFound("backup")) ==>
              result.Failure? && result.error.NotFound?
  {
    var file, calls, sleeps := Retry(policy, GetReplies(files, id, faults));
    LastCallUnique(policy, GetReplies(files, id, faults), calls - 1);
    if file.Failure? {
      return Failure(file.error);
    }
    if !IsInFolder(file.value, folder) {
      return Failure(NotFound("backup"));
    }
    result := ToBackupInfo(file.value);
  }

  /** `listing` shows stored files that the query text selects. */
  predicate Shows(files: map<string, Stored>, text: string, listing: seq<DriveFile>) {
    forall i :: 0 <= i < |listing| ==>
      && listing[i].id.Some? && listing[i].id.value in files && files[listing[i].id.value].meta == listing[i]
      && TextSelects(text, listing[i])
  }

  lemma {:induction false} BackupComesFromFile(listing: seq<DriveFile>, b: BackupInfo) returns (i: nat)
    requires b in Backups(listing)
    ensures i < |listing| && ToBackupInfo(listing[i]) == Success(b)
  {
    if ToBackupInfo(listing[0]) == Success(b) {
      i := 0;
    } else {
      var j := BackupComesFromFile(listing[1..], b);
      i := j + 1;
    }
  }

  lemma IdComesFromFile(file: DriveFile, b: BackupInfo)
    requires ToBackupInfo(file) == Success(b)
    ensures file.id == Some(b.id)
  {
  }

  /** Every backup that `list` or `latest` returns is accepted by `get` with the same description while
      the folder is unchanged, and one that `latest` returns is never a pre-restore copy. */
  lemma ListedIsGettable(files: map<string, Stored>, folder: string, listing: seq<DriveFile>, b: BackupInfo)
    requires b in Backups(listing)
    requires Shows(files, FolderQuery(folder), listing) || Shows(files, LatestQuery(folder), listing)
    ensures GetResult(files, folder, b.id) == Success(b)
    ensures Shows(files, LatestQuery(folder), listing) ==> b.kind == Regular
  {
    var i := BackupComesFromFile(listing, b);
    FolderQuerySelects(folder, listing[i]);
    LatestQuerySelects(folder, listing[i]);
    IdComesFromFile(listing[i], b);
    KindComesFromProperty(listing[i]);
  }
}
