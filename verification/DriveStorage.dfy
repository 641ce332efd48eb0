/** Delete, upload and download against a Drive over a lossy network: a request may take effect and
    still lose its reply. Every call is given the fate of its attempts, so the contracts speak about
    every sequence of replies. */
module DriveStorage {
  import opened Core
  import opened Mapping
  import opened Retrying

  // ---------- Delete ----------

  type OtherStatus = s: nat | s != 404 witness 403

  /** Drive answers 404 for a file that is not there (part of `Served`) and also for one that is there
      but hidden from the account. */
  datatype DeleteFate =
    | Served
    | Hidden
    | Lost(applied: bool, msg: string)
    | Refused(status: OtherStatus, reason: Option<string>)

  predicate TakesEffect(fate: DeleteFate) {
    fate.Served? || (fate.Lost? && fate.applied)
  }

  /** One of the first `calls` attempts took effect. */
  predicate AnyEffect(fates: nat -> DeleteFate, calls: nat) {
    exists k :: 0 <= k < calls && TakesEffect(fates(k))
  }

  /** A lost reply, overload, a server error or a rate limit. */
  predicate WorthRetrying(fate: DeleteFate) {
    fate.Lost? || (fate.Refused? && Retryable(fate.status, fate.reason))
  }

  function DeleteReply(files: map<string, Stored>, id: string, fate: DeleteFate): CallResult<()> {
    match fate
    case Served => if id in files then Ok(()) else Err(ClassifyStatus(404, None, "not found"))
    case Hidden => Err(ClassifyStatus(404, None, "not found"))
    case Lost(_, msg) => Err(Transient(msg))
    case Refused(status, reason) => Err(ClassifyStatus(status, reason, "refused"))
  }

  /** What each attempt answers; whether an answer is transient does not depend on the folder. */
  function DeleteReplies(files: map<string, Stored>, id: string, fates: nat -> DeleteFate): nat -> CallResult<()> {
    (k: nat) => DeleteReply(files, id, fates(k))
  }

  // ---------- Upload ----------

  /** `reply` is the record that came back; it may lack fields. */
  datatype UploadFate =
    | OpenFails
    | Answered(id: string, time: int, md5: Option<string>, reply: DriveFile)
    | Vanished(effect: Option<(string, int, Option<string>)>, msg: string)
    | Rejected(status: nat, reason: Option<string>)

  datatype UploadCall = UploadCall(request: UploadRequest, content: Bytes, fate: UploadFate)

  /** The file a call creates, if it has an effect. */
  function CreatedFile(folder: string, call: UploadCall): Option<(string, Stored)> {
    var meta := UploadMetadata(call.request, folder);
    match call.fate
    case Answered(id, time, md5, _) => Some((id, Stored(Created(meta, id, time, |call.content|, md5), call.content)))
    case Vanished(Some((id, time, md5)), _) =>
      Some((id, Stored(Created(meta, id, time, |call.content|, md5), call.content)))
    case _ => None
  }

  /** The metadata lie in the folder and map to what was requested. */
  predicate DescribesRequest(folder: string, call: UploadCall, id: string, meta: DriveFile) {
    && InListing(meta, folder) && ToBackupInfo(meta).Success?
    && var info, req := ToBackupInfo(meta).value, call.request;
       && info.id == id && info.name == req.name && info.sizeBytes == Some(|call.content|)
       && info.format == req.format && info.kind == req.kind
  }

  /** A reply that is mapped at all is the record of the created file. */
  predicate HonestReply(folder: string, call: UploadCall) {
    call.fate.Answered? && ToBackupInfo(call.fate.reply).Success? ==>
      ToBackupInfo(call.fate.reply) == ToBackupInfo(CreatedFile(folder, call).value.1.meta)
  }

  // ---------- Download ----------

  datatype Frame = Data(bytes: Bytes) | Trailers | Broken(msg: string) | Unwritable(kept: Bytes)

  /** One attempt: the reply to the request, whether the destination can be created and flushed, and
      the frames of the body. */
  datatype Attempt = Attempt(headers: Option<CallError>, creatable: bool, frames: seq<Frame>, flushes: bool)

  const WRITE_ERROR: CallError := Permanent(Io("Could not write download file"))
  const CREATE_ERROR: CallError := Permanent(Io("Could not create download file"))

  function Payload(frames: seq<Frame>): Bytes {
    if frames == [] then [] else (if frames[0].Data? then frames[0].bytes else []) + Payload(frames[1..])
  }

  predicate Sound(frames: seq<Frame>) {
    forall i :: 0 <= i < |frames| ==> frames[i].Data? || frames[i].Trailers?
  }

  function Lower(c: char): char {
    if 'A' <= c <= 'Z' then (c as int + 32) as char else c
  }

  predicate EqIgnoreCase(a: string, b: string) {
    |a| == |b| && forall i :: 0 <= i < |a| ==> Lower(a[i]) == Lower(b[i])
  }

  /** Equal characters, or the two cases of one ASCII letter. */
  predicate OneLetter(a: char, b: char) {
    a == b || ('A' <= a <= 'Z' && b as int == a as int + 32) || ('A' <= b <= 'Z' && a as int == b as int + 32)
  }

  /** What the checksum stands for, independently of the code's comparison. */
  predicate ChecksumOk(digest: Bytes -> string, backup: BackupInfo, content: Bytes) {
    backup.md5.Some? ==>
      && |digest(content)| == |backup.md5.value|
      && forall i :: 0 <= i < |backup.md5.value| ==> OneLetter(digest(content)[i], backup.md5.value[i])
  }

  lemma SameLower(a: char, b: char)
    ensures Lower(a) == Lower(b) <==> OneLetter(a, b)
  {
  }

  lemma ComparisonIsChecksum(a: string, b: string)
    ensures EqIgnoreCase(a, b) <==> |a| == |b| && forall i :: 0 <= i < |b| ==> OneLetter(a[i], b[i])
  {
    if |a| == |b| {
      forall i | 0 <= i < |b| ensures Lower(a[i]) == Lower(b[i]) <==> OneLetter(a[i], b[i]) {
        SameLower(a[i], b[i]);
      }
    }
  }

  /** The attempt delivered every frame, stored it, and the checksum agrees. */
  predicate Delivers(digest: Bytes -> string, backup: BackupInfo, a: Attempt) {
    a.headers.None? && a.creatable && a.flushes && Sound(a.frames) && ChecksumOk(digest, backup, Payload(a.frames))
  }

  function FirstFault(frames: seq<Frame>): Option<CallError> {
    if frames == [] then None
    else
      match frames[0]
      case Broken(msg) => Some(Transient(msg))
      case Unwritable(_) => Some(WRITE_ERROR)
      case _ => FirstFault(frames[1..])
  }

  /** What an attempt answers: its first obstacle, or the number of bytes. */
  function AttemptReply(digest: Bytes -> string, backup: BackupInfo, a: Attempt): CallResult<nat> {
    if a.headers.Some? then Err(a.headers.value)
    else if !a.creatable then Err(CREATE_ERROR)
    else if FirstFault(a.frames).Some? then Err(FirstFault(a.frames).value)
    else if !a.flushes then Err(WRITE_ERROR)
    else if !ChecksumOk(digest, backup, Payload(a.frames)) then Err(Transient("Checksum mismatch"))
    else Ok(|Payload(a.frames)|)
  }

  function AttemptReplies(digest: Bytes -> string, backup: BackupInfo, attempts: nat -> Attempt)
    : nat -> CallResult<nat>
  {
    (k: nat) => AttemptReply(digest, backup, attempts(k))
  }

  lemma {:induction false} SoundHasNoFault(frames: seq<Frame>)
    ensures FirstFault(frames).None? <==> Sound(frames)
  {
    if frames != [] {
      SoundHasNoFault(frames[1..]);
      assert Sound(frames) <==> (frames[0].Data? || frames[0].Trailers?) && Sound(frames[1..]) by {
        assert forall i :: 0 <= i < |frames| - 1 ==> frames[1..][i] == frames[i + 1];
      }
    }
  }

  lemma {:induction false} FaultAfterSound(front: seq<Frame>, back: seq<Frame>)
    requires Sound(front)
    ensures FirstFault(front + back) == FirstFault(back)
  {
    if front == [] {
      assert front + back == back;
    } else {
      assert (front + back)[1..] == front[1..] + back;
      FaultAfterSound(front[1..], back);
    }
  }

  /** A body that breaks off is worth another attempt; a destination that cannot be created, written or
      flushed is not. */
  lemma FaultDecidesRetry(digest: Bytes -> string, backup: BackupInfo, a: Attempt, i: nat)
    requires a.headers.None? && i <= |a.frames| && Sound(a.frames[..i])
    ensures a.creatable && i < |a.frames| && a.frames[i].Broken? ==>
              AttemptReply(digest, backup, a) == Err(Transient(a.frames[i].msg))
    ensures !a.creatable || (i < |a.frames| && a.frames[i].Unwritable?) || (i == |a.frames| && !a.flushes) ==>
              && AttemptReply(digest, backup, a).Err? && AttemptReply(digest, backup, a).error.Permanent?
              && AttemptReply(digest, backup, a).error.error.Io?
  {
    assert a.frames == a.frames[..i] + a.frames[i..];
    FaultAfterSound(a.frames[..i], a.frames[i..]);
  }

  lemma {:induction false} PayloadAppend(frames: seq<Frame>, f: Frame)
    ensures Payload(frames + [f]) == Payload(frames) + (if f.Data? then f.bytes else [])
  {
    if frames == [] {
      assert frames + [f] == [f];
    } else {
      assert (frames + [f])[1..] == frames[1..] + [f];
      PayloadAppend(frames[1..], f);
    }
  }

  /** Backups kept in one Drive folder. `files` is what Drive holds; `digest` stands for hex MD5. */
  class GoogleDriveStorage {
    const folder: string
    const policy: RetryPolicy
    const digest: Bytes -> string
    var files: map<string, Stored>
    /** The local file a download writes to. */
    var dst: Bytes

    constructor (folder: string, policy: RetryPolicy, digest: Bytes -> string, files: map<string, Stored>)
      ensures this.folder == folder && this.policy == policy && this.digest == digest
      ensures this.files == files && dst == []
    {
      this.folder, this.policy, this.digest, this.files, this.dst := folder, policy, digest, files, [];
    }

    method DeleteOnce(id: string, fate: DeleteFate) returns (reply: CallResult<()>)
      modifies this`files
      ensures reply == DeleteReply(old(files), id, fate)
      ensures files == if TakesEffect(fate) then old(files) - {id} else old(files)
    {
      reply := DeleteReply(files, id, fate);
      if TakesEffect(fate) {
        files := files - {id};
      }
    }

    /** Delete is retried and a missing file counts as deleted. On any result the file is gone exactly
        when it was absent or some attempt took effect, nothing else has changed, and success means it
        is gone, even when an earlier attempt took effect and lost its reply, unless Drive hides the file
        from the account. */
    method Delete(id: string, fates: nat -> DeleteFate) returns (result: Result<()>, calls: nat)
      modifies this`files
      ensures calls == LastCall(policy, DeleteReplies(old(files), id, fates)) + 1
      ensures files == if AnyEffect(fates, calls) then old(files) - {id} else old(files)
      ensures result == if fates(calls - 1).Served? || fates(calls - 1).Hidden? then Success(())
                        else FinalResult(DeleteReply(old(files), id, fates(calls - 1)))
      ensures result.Success? ==>
                (id in files <==> id in old(files) && fates(calls - 1).Hidden? && !AnyEffect(fates, calls))
      ensures result.Failure? && result.error.Unavailable? ==> calls == MaxCalls(policy)
      ensures forall k :: 0 <= k < calls - 1 ==> WorthRetrying(fates(k))
      ensures WorthRetrying(fates(calls - 1)) ==> calls == if policy.attempts > 1 then policy.attempts else 1
    {
      ghost var replies := DeleteReplies(files, id, fates);
      var attempt := 1;
      calls := 0;
      while true
        invariant attempt == calls + 1 && calls < MaxCalls(policy)
        invariant files == if AnyEffect(fates, calls) then old(files) - {id} else old(files)
        invariant forall k :: 0 <= k < calls ==> IsTransient(replies(k)) && WorthRetrying(fates(k))
        decreases MaxCalls(policy) - calls
      {
        var reply := DeleteOnce(id, fates(calls));
        assert IsTransient(reply) <==> IsTransient(replies(calls));
        calls := calls + 1;
        if !IsTransient(reply) || attempt >= policy.attempts {
          LastCallUnique(policy, replies, calls - 1);
          match FinalResult(reply) {
            case Failure(NotFound(_)) => return Success(()), calls;
            case r => return r, calls;
          }
        }
        attempt := attempt + 1;
      }
    }

    /** Upload is tried once. It creates at most one file, whatever the reply, with the given content and
        metadata that map to the request, and reports success only for a file it has created, described by
        the record that came back. */
    method Upload(call: UploadCall) returns (result: Result<BackupInfo>)
      modifies this`files
      ensures CreatedFile(folder, call).None? ==> files == old(files) && result.Failure?
      ensures call.fate.Answered? ==> call.fate.id in files
      ensures call.fate.Vanished? && call.fate.effect.Some? ==> call.fate.effect.value.0 in files
      ensures CreatedFile(folder, call).Some? ==>
                var (id, file) := CreatedFile(folder, call).value;
                && files == old(files)[id := file] && file.content == call.content
                && DescribesRequest(folder, call, id, file.meta)
                && (result.Success? && HonestReply(folder, call) ==>
                      && result == ToBackupInfo(file.meta) && result.value.id == id
                      && result.value.kind == call.request.kind)
      ensures result.Success? <==> call.fate.Answered? && ToBackupInfo(call.fate.reply).Success?
      ensures result.Success? ==> result == ToBackupInfo(call.fate.reply)
    {
      var created := CreatedFile(folder, call);
      if created.Some? {
        var (id, file) := created.value;
        files := files[id := file];
        UploadRoundTrip(call.request, folder, id, file.meta.createdTime.value, |call.content|, file.meta.md5Checksum);
      }
      match call.fate
      case OpenFails => result := Failure(Io("Could not open"));
      case Answered(_, _, _, reply) => result := ToBackupInfo(reply);
      case Vanished(_, msg) => result := Failure(Transient(msg).IntoError());
      case Rejected(status, reason) => result := Failure(ClassifyStatus(status, reason, "rejected").IntoError());
    }

    /** One download attempt: the destination is created anew, every data frame is hashed, counted and
        written, and the checksum decides at the end. */
    method DownloadOnce(backup: BackupInfo, a: Attempt) returns (reply: CallResult<nat>)
      modifies this`dst
      ensures reply == AttemptReply(digest, backup, a)
      ensures reply.Ok? ==> dst == Payload(a.frames) && reply.value == |dst|
      ensures a.headers.Some? || !a.creatable ==> dst == old(dst)
      ensures a.headers.None? && a.creatable && Sound(a.frames) && a.flushes && backup.md5.Some?
              && (|digest(Payload(a.frames))| != |backup.md5.value|
                  || exists i :: 0 <= i < |backup.md5.value|
                                 && !OneLetter(digest(Payload(a.frames))[i], backup.md5.value[i])) ==>
                IsTransient(reply)
    {
      if a.headers.Some? {
        return Err(a.headers.value);
      }
      if !a.creatable {
        return Err(CREATE_ERROR);
      }
      dst := [];
      var hashed: Bytes, size, i := [], 0, 0;
      while i < |a.frames|
        invariant 0 <= i <= |a.frames|
        invariant Sound(a.frames[..i])
        invariant dst == hashed == Payload(a.frames[..i]) && size == |dst|
      {
        var frame := a.frames[i];
        assert a.frames == a.frames[..i] + a.frames[i..];
        FaultAfterSound(a.frames[..i], a.frames[i..]);
        assert a.frames[..i + 1] == a.frames[..i] + [frame];
        PayloadAppend(a.frames[..i], frame);
        i := i + 1;
        match frame {
          case Trailers =>
          case Broken(msg) => return Err(Transient(msg));
          case Unwritable(kept) =>
            dst := dst + kept;
            return Err(WRITE_ERROR);
          case Data(bytes) =>
            hashed := hashed + bytes;
            size := size + |bytes|;
            dst := dst + bytes;
        }
      }
      assert a.frames[..i] == a.frames;
      SoundHasNoFault(a.frames);
      if !a.flushes {
        return Err(WRITE_ERROR);
      }
      if backup.md5.Some? {
        ComparisonIsChecksum(digest(hashed), backup.md5.value);
      }
      if backup.md5.Some? && !EqIgnoreCase(digest(hashed), backup.md5.value) {
        return Err(Transient("Checksum mismatch"));
      }
      return Ok(size);
    }

    /** A download is never a mixture: after any number of failed attempts, success means that the
        destination holds exactly the data frames of the last attempt, which all arrived and were
        stored, and that their digest agrees with the stored one up to case. Success happens exactly
        when the last attempt made delivers. */
    method Download(backup: BackupInfo, attempts: nat -> Attempt) returns (result: Result<()>, calls: nat)
      modifies this`dst
      ensures calls == LastCall(policy, AttemptReplies(digest, backup, attempts)) + 1
      ensures result.Success? <==> Delivers(digest, backup, attempts(calls - 1))
      ensures result.Success? ==> dst == Payload(attempts(calls - 1).frames)
      ensures result.Success? && backup.md5.Some? ==>
                && |digest(dst)| == |backup.md5.value|
                && forall i :: 0 <= i < |backup.md5.value| ==>
                     var c, d := digest(dst)[i], backup.md5.value[i];
                     || c == d || ('A' <= c <= 'Z' && d as int == c as int + 32)
                     || ('A' <= d <= 'Z' && c as int == d as int + 32)
      ensures result == match AttemptReply(digest, backup, attempts(calls - 1))
                        case Ok(_) => Success(())
                        case Err(error) => Failure(error.IntoError())
    {
      ghost var replies := AttemptReplies(digest, backup, attempts);
      var attempt := 1;
      calls := 0;
      while true
        invariant attempt == calls + 1 && calls < MaxCalls(policy)
        invariant forall k :: 0 <= k < calls ==> IsTransient(replies(k))
        decreases MaxCalls(policy) - calls
      {
        var reply := DownloadOnce(backup, attempts(calls));
        SoundHasNoFault(attempts(calls).frames);
        calls := calls + 1;
        if !IsTransient(reply) || attempt >= policy.attempts {
          LastCallUnique(policy, replies, calls - 1);
          return if reply.Ok? then Success(()) else Failure(reply.error.IntoError()), calls;
        }
        attempt := attempt + 1;
      }
    }
  }

  // ---------- Runs of uploads ----------

  /** The folder after a sequence of upload calls. */
  function AfterUploads(folder: string, files: map<string, Stored>, calls: seq<UploadCall>): map<string, Stored>
    decreases |calls|
  {
    if calls == [] then files
    else
      var created := CreatedFile(folder, calls[0]);
      AfterUploads(folder, if created.Some? then files[created.value.0 := created.value.1] else files, calls[1..])
  }

  /** Drive never hands out an id twice. */
  predicate FreshIds(folder: string, files: map<string, Stored>, calls: seq<UploadCall>)
    decreases |calls|
  {
    calls == [] ||
    var created := CreatedFile(folder, calls[0]);
    if created.Some? then
      created.value.0 !in files && FreshIds(folder, files[created.value.0 := created.value.1], calls[1..])
    else FreshIds(folder, files, calls[1..])
  }

  predicate Succeeds(call: UploadCall) {
    call.fate.Answered? && ToBackupInfo(call.fate.reply).Success?
  }

  function Count(calls: seq<UploadCall>, p: UploadCall -> bool): nat {
    if calls == [] then 0 else (if p(calls[0]) then 1 else 0) + Count(calls[1..], p)
  }

  /** Over every run of uploads the number of new files is the successes plus the calls whose effect
      happened but whose reply was lost or could not be mapped, and never more than the calls. */
  lemma {:induction false} UploadsCounted(folder: string, files: map<string, Stored>, calls: seq<UploadCall>)
    requires FreshIds(folder, files, calls)
    ensures |AfterUploads(folder, files, calls)|
         == |files| + Count(calls, c => Succeeds(c))
            + Count(calls, c => CreatedFile(folder, c).Some? && !Succeeds(c))
    ensures Count(calls, c => Succeeds(c)) + Count(calls, c => CreatedFile(folder, c).Some? && !Succeeds(c)) <= |calls|
    ensures forall id :: id in files ==>
              id in AfterUploads(folder, files, calls) && AfterUploads(folder, files, calls)[id] == files[id]
    decreases |calls|
  {
    if calls != [] {
      var created := CreatedFile(folder, calls[0]);
      var next := if created.Some? then files[created.value.0 := created.value.1] else files;
      if created.Some? {
        assert next.Keys == files.Keys + {created.value.0};
        assert |next| == |next.Keys| == |files| + 1;
      }
      UploadsCounted(folder, next, calls[1..]);
    }
  }
}
