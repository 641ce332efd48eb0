/** Streaming a file to a client: a producer reads chunks and pushes them into a bounded channel, a
    consumer takes them out and may disconnect at any time. */
module Stream {
  import opened Core

  const CHUNK_SIZE: nat := 1024 * 1024
  const STREAM_BUFFER: nat := 4

  datatype Message = Header(info: BackupInfo) | Chunk(data: Bytes) | Broken(reason: string)

  datatype End = Completed | FailedRead | Disconnected

  datatype Producer = Starting | Opening | Reading | Sending(message: Message) | Done(end: End)

  /** `log` is history: every message the channel has accepted. */
  datatype State = State(
    file: Bytes,
    info: BackupInfo,
    pos: nat,
    producer: Producer,
    queue: seq<Message>,
    received: seq<Message>,
    connected: bool,
    log: seq<Message>)

  datatype Step =
    | SendHeader
    | Open(ok: bool)
    | Read(n: nat)
    | ReadEnd
    | ReadFails
    | Push
    | SendFails
    | Receive
    | Disconnect

  const OPEN_FAILED := Broken("Could not open download")
  const READ_FAILED := Broken("Could not read download")

  function Init(file: Bytes, info: BackupInfo): State {
    State(file, info, 0, Starting, [], [], true, [])
  }

  predicate Enabled(s: State, step: Step) {
    match step
    case SendHeader => s.producer.Starting? && s.connected && |s.queue| < STREAM_BUFFER
    case Open(_) => s.producer.Opening?
    case Read(n) => s.producer.Reading? && 1 <= n <= CHUNK_SIZE && s.pos + n <= |s.file|
    case ReadEnd => s.producer.Reading? && s.pos == |s.file|
    case ReadFails => s.producer.Reading?
    case Push => s.producer.Sending? && s.connected && |s.queue| < STREAM_BUFFER
    case SendFails => (s.producer.Starting? || s.producer.Sending?) && !s.connected
    case Receive => s.connected && s.queue != []
    case Disconnect => s.connected
  }

  function Accepted(s: State, m: Message, next: Producer): State {
    s.(queue := s.queue + [m], log := s.log + [m], producer := next)
  }

  function Next(s: State, step: Step): State
    requires Enabled(s, step)
  {
    match step
    case SendHeader => Accepted(s, Header(s.info), Opening)
    case Open(ok) => s.(producer := if ok then Reading else Sending(OPEN_FAILED))
    case Read(n) => s.(producer := Sending(Chunk(s.file[s.pos..s.pos + n])), pos := s.pos + n)
    case ReadEnd => s.(producer := Done(Completed))
    case ReadFails => s.(producer := Sending(READ_FAILED))
    case Push =>
      Accepted(s, s.producer.message, if s.producer.message.Broken? then Done(FailedRead) else Reading)
    case SendFails => s.(producer := Done(Disconnected))
    case Receive => s.(received := s.received + [s.queue[0]], queue := s.queue[1..])
    case Disconnect => s.(connected := false, queue := [])
  }

  predicate Run(s: State, steps: seq<Step>, s': State)
    decreases |steps|
  {
    if steps == [] then s' == s
    else Enabled(s, steps[0]) && Run(Next(s, steps[0]), steps[1..], s')
  }

  // ---------- Invariant ----------

  function DataOf(messages: seq<Message>): Bytes {
    if messages == [] then [] else (if messages[0].Chunk? then messages[0].data else []) + DataOf(messages[1..])
  }

  lemma {:induction false} DataOfConcat(a: seq<Message>, b: seq<Message>)
    ensures DataOf(a + b) == DataOf(a) + DataOf(b)
  {
    if a == [] {
      assert a + b == b;
    } else {
      assert (a + b)[1..] == a[1..] + b;
      DataOfConcat(a[1..], b);
    }
  }

  predicate GoodChunk(m: Message) {
    m.Chunk? ==> 1 <= |m.data| <= 1024 * 1024
  }

  /** A header first and only there, chunks of legal size, and an error only at the very end. */
  predicate WellFormed(messages: seq<Message>, info: BackupInfo) {
    && (forall i :: 0 <= i < |messages| ==> GoodChunk(messages[i]) && (messages[i].Header? <==> i == 0))
    && (forall i :: 0 <= i < |messages| - 1 ==> !messages[i].Broken?)
    && (messages != [] ==> messages[0] == Header(info))
  }

  predicate HasError(messages: seq<Message>) {
    |messages| > 0 && messages[|messages| - 1].Broken?
  }

  /** The bytes taken from the file but not yet accepted by the channel. */
  function InHand(p: Producer): Bytes {
    if p.Sending? && p.message.Chunk? then p.message.data else []
  }

  predicate ChannelInv(s: State) {
    && |s.queue| <= STREAM_BUFFER
    && s.received <= s.log
    && (s.connected ==> s.received + s.queue == s.log)
    && (!s.connected ==> s.queue == [])
  }

  predicate LogInv(s: State) {
    && WellFormed(s.log, s.info)
    && (s.producer.Starting? ==> s.log == [])
    && (s.log == [] ==> s.producer.Starting? || s.producer == Done(Disconnected))
    && (s.producer.Sending? ==> GoodChunk(s.producer.message) && !s.producer.message.Header?)
    && (HasError(s.log) <==> s.producer == Done(FailedRead))
  }

  predicate DataInv(s: State) {
    && s.pos <= |s.file|
    && (s.producer == Done(Completed) ==> s.pos == |s.file|)
    && (s.producer == Done(Disconnected) ==> !s.connected && DataOf(s.log) <= s.file)
    && (s.producer != Done(Disconnected) ==> DataOf(s.log) + InHand(s.producer) == s.file[..s.pos])
  }

  predicate Inv(s: State) {
    && (ChannelInv(s) <==> true)
    && (LogInv(s) <==> true)
    && (DataInv(s) <==> true)
  }

  lemma ChannelStep(s: State, step: Step)
    requires ChannelInv(s) && Enabled(s, step)
    ensures ChannelInv(Next(s, step)) <==> true
  {
    var s' := Next(s, step);
    if step.SendHeader? || step.Push? {
      var m := s'.queue[|s.queue|];
      assert s'.received + s'.queue == (s.received + s.queue) + [m];
    } else if step.Receive? {
      assert s.queue == [s.queue[0]] + s.queue[1..];
      assert s'.received + s'.queue == s.received + s.queue;
    }
  }

  lemma AcceptedWellFormed(log: seq<Message>, info: BackupInfo, m: Message)
    requires WellFormed(log, info) && !HasError(log) && GoodChunk(m)
    requires if log == [] then m == Header(info) else !m.Header?
    ensures WellFormed(log + [m], info)
  {
    assert forall i :: 0 <= i < |log| ==> (log + [m])[i] == log[i];
  }

  lemma LogStep(s: State, step: Step)
    requires LogInv(s) && Enabled(s, step)
    ensures LogInv(Next(s, step)) <==> true
  {
    if step.SendHeader? {
      AcceptedWellFormed(s.log, s.info, Header(s.info));
    } else if step.Push? {
      AcceptedWellFormed(s.log, s.info, s.producer.message);
    }
  }

  lemma AcceptedData(log: seq<Message>, m: Message)
    ensures DataOf(log + [m]) == DataOf(log) + (if m.Chunk? then m.data else [])
  {
    DataOfConcat(log, [m]);
    assert DataOf([m]) == (if m.Chunk? then m.data else []) + DataOf([]);
  }

  lemma DataStep(s: State, step: Step)
    requires DataInv(s) && Enabled(s, step)
    ensures DataInv(Next(s, step)) <==> true
  {
    if step.SendHeader? {
      AcceptedData(s.log, Header(s.info));
    } else if step.Push? {
      AcceptedData(s.log, s.producer.message);
    } else if step.Read? {
      PrefixGrows(s.file, s.pos, step.n);
    } else if step.SendFails? {
      assert DataOf(s.log) <= s.file[..s.pos] <= s.file;
    }
  }

  lemma PrefixGrows(file: Bytes, pos: nat, n: nat)
    requires pos + n <= |file|
    ensures file[..pos] + file[pos..pos + n] == file[..pos + n]
    ensures file[..pos] + [] == file[..pos]
  {
  }

  lemma {:induction false} InvRun(s: State, steps: seq<Step>, s': State)
    requires Inv(s) && Run(s, steps, s')
    ensures Inv(s') && s'.file == s.file && s'.info == s.info
    decreases |steps|
  {
    if steps != [] {
      ChannelStep(s, steps[0]);
      LogStep(s, steps[0]);
      DataStep(s, steps[0]);
      InvRun(Next(s, steps[0]), steps[1..], s');
    }
  }

  lemma DataOfPrefix(a: seq<Message>, b: seq<Message>)
    requires a <= b
    ensures DataOf(a) <= DataOf(b)
  {
    assert b == a + b[|a|..];
    DataOfConcat(a, b[|a|..]);
  }

  lemma LogPrefix(s: State)
    requires ChannelInv(s)
    ensures s.received + s.queue <= s.log
  {
    assert s.queue == [] ==> s.received + s.queue == s.received;
  }

  lemma LogData(s: State)
    requires DataInv(s)
    ensures DataOf(s.log) <= s.file
  {
  }

  lemma WellFormedPrefix(a: seq<Message>, b: seq<Message>, info: BackupInfo)
    requires a <= b && WellFormed(b, info)
    ensures WellFormed(a, info) && (HasError(a) ==> a == b)
  {
    assert forall i :: 0 <= i < |a| ==> a[i] == b[i];
  }

  /** In every run, under every schedule and every pattern of short reads: at most four messages are
      queued, what was received followed by what is queued is the header, then chunks of 1 byte to
      1 MiB whose bytes are a prefix of the file, and an error only as the last message. */
  lemma StreamIsPrefix(file: Bytes, info: BackupInfo, steps: seq<Step>, s: State)
    requires Run(Init(file, info), steps, s)
    ensures |s.queue| <= 4
    ensures WellFormed(s.received + s.queue, info)
    ensures DataOf(s.received + s.queue) <= file
    ensures HasError(s.received + s.queue) ==> s.producer == Done(FailedRead)
  {
    InvRun(Init(file, info), steps, s);
    LogPrefix(s);
    LogData(s);
    DataOfPrefix(s.received + s.queue, s.log);
    WellFormedPrefix(s.received + s.queue, s.log, info);
  }

  /** A consumer that stays connected receives exactly the file once the producer has completed. */
  lemma CompletionDeliversAll(file: Bytes, info: BackupInfo, steps: seq<Step>, s: State)
    requires Run(Init(file, info), steps, s) && s.producer == Done(Completed) && s.connected
    ensures DataOf(s.received + s.queue) == file
  {
    InvRun(Init(file, info), steps, s);
    assert s.file[..s.pos] == file;
  }

  // ---------- Termination under every schedule ----------

  function Weight(p: Producer): nat {
    match p
    case Starting => 6
    case Opening => 4
    case Reading => 3
    case Sending(m) => if m.Broken? then 2 else 5
    case Done(_) => 0
  }

  function Measure(s: State): int {
    4 * (|s.file| - s.pos) + Weight(s.producer) + |s.queue| + (if s.connected then 1 else 0)
  }

  lemma {:induction false} RunIsBounded(s: State, steps: seq<Step>, s': State)
    requires Run(s, steps, s')
    ensures |steps| + Measure(s') <= Measure(s)
    decreases |steps|
  {
    if steps != [] {
      RunIsBounded(Next(s, steps[0]), steps[1..], s');
    }
  }

  /** No schedule runs forever, and the transfer never gets stuck: as long as the producer is not done
      or a connected consumer has messages waiting, there is a step that is neither a failure nor a
      disconnect. */
  lemma StreamTerminates(file: Bytes, info: BackupInfo, steps: seq<Step>, s: State)
    requires Run(Init(file, info), steps, s)
    ensures |steps| <= 4 * |file| + 7
    ensures !s.producer.Done? || (s.connected && s.queue != [])
            ==> exists step :: Enabled(s, step) && !step.Disconnect? && !step.ReadFails?
  {
    InvRun(Init(file, info), steps, s);
    RunIsBounded(Init(file, info), steps, s);
    if !s.producer.Done? || (s.connected && s.queue != []) {
      var step := GoodStep(s);
    }
  }

  /** A step that takes the transfer on. */
  lemma GoodStep(s: State) returns (step: Step)
    requires s.pos <= |s.file| && (!s.producer.Done? || (s.connected && s.queue != []))
    ensures Enabled(s, step) && !step.Disconnect? && !step.ReadFails?
  {
    if s.connected && s.queue != [] {
      step := Receive;
    } else {
      step :=
        match s.producer
        case Starting => if s.connected then SendHeader else SendFails
        case Opening => Open(true)
        case Reading => if s.pos < |s.file| then Read(1) else ReadEnd
        case _ => if s.connected then Push else SendFails;
    }
  }

  /** Hence a run in which only a disconnect could still happen has delivered the header and the whole
      file, unless its last message is an error. */
  lemma MaximalRunDelivers(file: Bytes, info: BackupInfo, steps: seq<Step>, s: State)
    requires Run(Init(file, info), steps, s) && s.connected
    requires forall step :: Enabled(s, step) ==> step.Disconnect?
    ensures s.received != [] && s.received[0] == Header(info)
    ensures if HasError(s.received) then s.producer == Done(FailedRead) else DataOf(s.received) == file
  {
    StreamTerminates(file, info, steps, s);
    InvRun(Init(file, info), steps, s);
    assert s.received + s.queue == s.received == s.log;
    assert s.producer.Done? && LogInv(s) && DataInv(s);
    match s.producer.end
    case Completed => CompletionDeliversAll(file, info, steps, s);
    case FailedRead =>
    case Disconnected =>
  }

  // ---------- The producer's own loop ----------

  /** What one read call does: fill up to `n` bytes of the buffer, or fail. */
  datatype ReadReply = Fills(n: nat) | Fails

  lemma {:induction false} Extend(s: State, steps: seq<Step>, s': State, step: Step)
    requires Run(s, steps, s') && Enabled(s', step)
    ensures Run(s, steps + [step], Next(s', step))
    decreases |steps|
  {
    if steps == [] {
      assert steps + [step] == [step];
      assert Run(Next(s, step), [step][1..], Next(s, step));
    } else {
      assert (steps + [step])[1..] == steps[1..] + [step];
      Extend(Next(s, steps[0]), steps[1..], s', step);
    }
  }

  ghost predicate Reached(file: Bytes, info: BackupInfo, s: State) {
    exists steps :: Run(Init(file, info), steps, s)
  }

  lemma ReachedNext(file: Bytes, info: BackupInfo, s: State, step: Step)
    requires Reached(file, info, s) && Enabled(s, step)
    ensures Reached(file, info, Next(s, step))
  {
    var steps :| Run(Init(file, info), steps, s);
    Extend(Init(file, info), steps, s, step);
  }

  /** Some run of the machine makes the channel accept `sent` and ends the producer with `end`. */
  ghost predicate Produces(file: Bytes, info: BackupInfo, sent: seq<Message>, end: End) {
    exists s :: Reached(file, info, s) && s.log == sent && s.producer == Done(end)
  }

  lemma ProducedIsSound(file: Bytes, info: BackupInfo, sent: seq<Message>, end: End)
    requires Produces(file, info, sent, end)
    ensures WellFormed(sent, info) && DataOf(sent) <= file
    ensures end == Completed ==> DataOf(sent) == file
    ensures end == FailedRead <==> HasError(sent)
  {
    var s :| Reached(file, info, s) && s.log == sent && s.producer == Done(end);
    var steps :| Run(Init(file, info), steps, s);
    InvRun(Init(file, info), steps, s);
    LogData(s);
    assert s.file[..|file|] == file;
  }

  /** A producer in phase `p` whose consumer has taken out everything sent so far. */
  function Drained(file: Bytes, info: BackupInfo, pos: nat, p: Producer, sent: seq<Message>): State {
    State(file, info, pos, p, [], sent, true, sent)
  }

  /** From a drained channel a pending send either goes through or finds the receiver gone. */
  lemma SendMove(file: Bytes, info: BackupInfo, pos: nat, m: Message, sent: seq<Message>)
    requires Reached(file, info, Drained(file, info, pos, Sending(m), sent))
    ensures Produces(file, info, sent, Disconnected)
    ensures m.Broken? ==> Produces(file, info, sent + [m], FailedRead)
    ensures !m.Broken? ==> Reached(file, info, Drained(file, info, pos, Reading, sent + [m]))
  {
    var s := Drained(file, info, pos, Sending(m), sent);
    ReachedNext(file, info, s, Disconnect);
    ReachedNext(file, info, Next(s, Disconnect), SendFails);
    ReachedNext(file, info, s, Push);
    var s' := Next(s, Push);
    ReachedNext(file, info, s', Receive);
    assert Next(s', Receive) == Drained(file, info, pos, s'.producer, sent + [m]);
  }

  lemma StartMove(file: Bytes, info: BackupInfo, opens: bool)
    ensures Produces(file, info, [], Disconnected)
    ensures Reached(file, info,
                    Drained(file, info, 0, if opens then Reading else Sending(OPEN_FAILED), [Header(info)]))
  {
    var s := Init(file, info);
    assert Run(s, [], s);
    ReachedNext(file, info, s, Disconnect);
    ReachedNext(file, info, Next(s, Disconnect), SendFails);
    ReachedNext(file, info, s, SendHeader);
    var s' := Next(s, SendHeader);
    ReachedNext(file, info, s', Receive);
    assert Next(s', Receive) == Drained(file, info, 0, Opening, [Header(info)]);
    ReachedNext(file, info, Next(s', Receive), Open(opens));
  }

  /** A read returns at least one byte before the end of the file, and never more than the buffer. */
  function Filled(n: nat, left: nat): (m: nat)
    requires left > 0
    ensures 1 <= m <= CHUNK_SIZE && m <= left
  {
    var wanted := if n == 0 then 1 else n;
    var limit := if left < CHUNK_SIZE then left else CHUNK_SIZE;
    if wanted < limit then wanted else limit
  }

  /** What the reading loop sends and how it ends, when it stands at `pos`, has made `k` reads and `room` more
      sends go through: each read becomes one chunk of exactly the bytes it brought. */
  function Expected(file: Bytes, pos: nat, k: nat, replies: nat -> ReadReply, room: nat): (seq<Message>, End)
    requires pos <= |file|
    decreases |file| - pos
  {
    if replies(k).Fails? then if room == 0 then ([], Disconnected) else ([READ_FAILED], FailedRead)
    else if pos == |file| then ([], Completed)
    else if room == 0 then ([], Disconnected)
    else
      var n := Filled(replies(k).n, |file| - pos);
      var rest := Expected(file, pos + n, k + 1, replies, room - 1);
      ([Chunk(file[pos..pos + n])] + rest.0, rest.1)
  }

  /** One chunk more on the way to `total`. */
  lemma ExpectedStep(file: Bytes, pos: nat, k: nat, replies: nat -> ReadReply, room: nat,
                     total: seq<Message>, sent: seq<Message>)
    requires pos < |file| && !replies(k).Fails? && room > 0
    requires total == sent + Expected(file, pos, k, replies, room).0
    ensures var n := Filled(replies(k).n, |file| - pos);
            && total == (sent + [Chunk(file[pos..pos + n])]) + Expected(file, pos + n, k + 1, replies, room - 1).0
            && Expected(file, pos, k, replies, room).1 == Expected(file, pos + n, k + 1, replies, room - 1).1
  {
  }

  /** The task behind a download: the header, then the file read chunk by chunk through one reused
      buffer. `replies(k)` is what the k-th read does and `accepts` is how many sends go through
      before the receiver is gone. Every execution is a run of the machine above. */
  method SendFile(file: Bytes, info: BackupInfo, opens: bool, replies: nat -> ReadReply, accepts: nat)
    returns (sent: seq<Message>, end: End)
    ensures Produces(file, info, sent, end)
    ensures |sent| <= accepts && (end == Disconnected ==> |sent| == accepts)
    ensures end == FailedRead ==> !opens || exists k :: replies(k).Fails?
    ensures end == Completed ==> DataOf(sent) == file
    ensures opens && accepts > 0 ==>
              (sent, end) == ([Header(info)] + Expected(file, 0, 0, replies, accepts - 1).0,
                              Expected(file, 0, 0, replies, accepts - 1).1)
    ensures !opens && accepts > 1 ==> (sent, end) == ([Header(info), OPEN_FAILED], FailedRead)
  {
    StartMove(file, info, opens);
    if accepts == 0 {
      return [], Disconnected;
    }
    sent := [Header(info)];
    if opens {
      sent, end := StreamFile(file, info, sent, replies, accepts);
    } else {
      SendMove(file, info, 0, OPEN_FAILED, sent);
      if |sent| == accepts {
        return sent, Disconnected;
      }
      assert [Header(info)] + [OPEN_FAILED] == [Header(info), OPEN_FAILED];
      sent, end := sent + [OPEN_FAILED], FailedRead;
    }
    ProducedIsSound(file, info, sent, end);
  }

  method StreamFile(file: Bytes, info: BackupInfo, before: seq<Message>, replies: nat -> ReadReply, accepts: nat)
    returns (sent: seq<Message>, end: End)
    requires Reached(file, info, Drained(file, info, 0, Reading, before)) && |before| <= accepts
    ensures Produces(file, info, sent, end)
    ensures |sent| <= accepts && (end == Disconnected ==> |sent| == accepts)
    ensures end == FailedRead ==> exists k :: replies(k).Fails?
    ensures sent == before + Expected(file, 0, 0, replies, accepts - |before|).0
    ensures end == Expected(file, 0, 0, replies, accepts - |before|).1
  {
    var buf := new Byte[CHUNK_SIZE];
    var pos, k := 0, 0;
    sent := before;
    ghost var total := before + Expected(file, 0, 0, replies, accepts - |before|).0;
    ghost var ending := Expected(file, 0, 0, replies, accepts - |before|).1;
    while true
      invariant pos <= |file| && |sent| <= accepts
      invariant Reached(file, info, Drained(file, info, pos, Reading, sent))
      invariant total == sent + Expected(file, pos, k, replies, accepts - |sent|).0
      invariant ending == Expected(file, pos, k, replies, accepts - |sent|).1
      decreases |file| - pos
    {
      ghost var s := Drained(file, info, pos, Reading, sent);
      var reply := replies(k);
      k := k + 1;
      var message;
      if reply.Fails? {
        message := READ_FAILED;
        ReachedNext(file, info, s, ReadFails);
      } else if pos == |file| {
        ReachedNext(file, info, s, ReadEnd);
        return sent, Completed;
      } else {
        var n := Filled(reply.n, |file| - pos);
        forall i | 0 <= i < n {
          buf[i] := file[pos + i];
        }
        message := Chunk(buf[..n]);
        assert buf[..n] == file[pos..pos + n];
        if |sent| < accepts {
          ExpectedStep(file, pos, k - 1, replies, accepts - |sent|, total, sent);
        }
        ReachedNext(file, info, s, Read(n));
        pos := pos + n;
      }
      SendMove(file, info, pos, message, sent);
      if |sent| == accepts {
        return sent, Disconnected;
      }
      sent := sent + [message];
      if message.Broken? {
        return sent, FailedRead;
      }
    }
  }
}
