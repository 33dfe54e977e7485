/**
  The multipart upload: one coordinator thread that plans, feeds, reaps and
  retries parts, and any number of pool workers that stream them out.

  Workers run between any two queue operations of the coordinator, so its loops
  are written as the steps of a machine: every `Action` is one region of the
  source that other threads cannot observe half done.  A `Run` is any
  interleaving of coordinator and worker actions, with any pattern of read
  lengths, failures and retries.
*/
module MultipartUpload {
  import opened Basics
  import opened Bytes
  import opened StreamData
  import PartPlan

  /** One upload: the file, its plan and the caller's limits. */
  datatype Config = Config(
    file: seq<byte>,
    plan: seq<PartPlan.Part>,
    bufSize: nat,
    checksum: bool,
    maxQueue: nat,
    maxRetries: nat,
    maxThreads: nat)
  {
    /** The queue length at which the pool has enough for now, in 32 bits. */
    function Room(): nat {
      (maxThreads + 4) % 0x1_0000_0000
    }

    ghost predicate Valid() {
      && maxQueue >= 1
      && PartPlan.IsCover(plan, |file|)
      && forall j :: 0 <= j < |plan| ==> plan[j].base + plan[j].size <= |file|
    }

    /** The first `n` bytes of part `j`. */
    ghost function Slice(j: nat, n: nat): seq<byte>
      requires Valid() && j < |plan| && n <= plan[j].size
    {
      file[plan[j].base..plan[j].base + n]
    }

    ghost function Whole(j: nat): seq<byte>
      requires Valid() && j < |plan|
    {
      Slice(j, plan[j].size)
    }
  }

  /** A queue limit of zero stands for ten. */
  function QueueLimit(maxQueueSize: nat): (limit: nat)
    ensures maxQueueSize > 0 ==> limit == maxQueueSize
    ensures maxQueueSize == 0 ==> limit == 10
  {
    if maxQueueSize == 0 then 10 else maxQueueSize
  }

  /**
    A part entry.  `hashed` stands for the bytes added to its checksum, `stored`
    for what the server keeps for it, and `attempts` counts how often it was sent.
  */
  datatype PartEntry = PartEntry(
    inProcess: bool,
    complete: bool,
    retryNum: nat,
    cursor: nat,
    queue: seq<Chunk>,
    hashed: seq<byte>,
    stored: seq<byte>,
    attempts: nat)

  /** A pool message: one attempt at one part.  `consumed` is what its worker has popped. */
  datatype Message = Message(part: nat, sent: bool, done: bool, error: bool, consumed: seq<byte>, sawLast: bool)

  datatype Call = Initiated(ok: bool) | Completed(ok: bool) | Aborted

  datatype Pc =
    | Start
    | Scan(i: nat, incomplete: bool)
    | Fill(i: nat, remaining: nat, records: nat)
    | Wait
    | Reap(k: nat, deleted: bool)
    | TopUp(k: nat, deleted: bool)
    | Finish
    | Returned(ok: bool)

  datatype State = State(parts: seq<PartEntry>, pending: seq<Message>, pos: nat, calls: seq<Call>, pc: Pc)

  datatype Action =
    | Initiate(ok: bool)
    | Skip
    | Enough(queued: nat)
    | AbortScan(queued: nat)
    | StartPart(queued: nat, sought: bool)
    | FillRead(n: nat)
    | SendPart
    | ScanEnd
    | Wake
    | ReapDone
    | OpenTopUp(sought: bool)
    | TopUpRead(n: nat)
    | CloseTopUp
    | ReapEnd
    | ReadFails
    | AbortWait
    | Complete(ok: bool)
    | WorkerPop(k: nat)
    | WorkerOk(k: nat)
    | WorkerFail(k: nat)

  const NEW_PART := PartEntry(false, false, 0, 0, [], [], [], 0)

  function Init(c: Config): State {
    State(seq(|c.plan|, _ => NEW_PART), [], 0, [], Start)
  }

  // ---------------------------------------------------------------- steps

  /** Indices the source cannot get wrong; `Invariant` implies it. */
  predicate WellFormed(c: Config, s: State) {
    && |s.parts| == |c.plan|
    && (forall k :: 0 <= k < |s.pending| ==> s.pending[k].part < |s.parts|)
    && (s.pc.Scan? ==> s.pc.i <= |s.parts|)
    && (s.pc.Fill? ==> s.pc.i < |s.parts| && s.pending != [])
    && (s.pc.Reap? ==> s.pc.k <= |s.pending|)
    && (s.pc.TopUp? ==> s.pc.k < |s.pending|)
  }

  predicate AtFreshPart(c: Config, s: State)
    requires WellFormed(c, s)
  {
    s.pc.Scan? && s.pc.i < |s.parts| && !s.parts[s.pc.i].complete && !s.parts[s.pc.i].inProcess
  }

  /** The stream gives back `n` bytes at its position: no more than asked for, and none past the end. */
  predicate CanRead(c: Config, pos: nat, n: nat, remaining: nat) {
    n <= c.bufSize && n <= remaining && pos + n <= |c.file|
  }

  /** The feed loop goes on: to the end of the part for a checksum, else until the queue is full. */
  predicate FillMore(c: Config, pc: Pc)
    requires pc.Fill?
  {
    pc.remaining > 0 && (c.checksum || pc.records < c.maxQueue)
  }

  predicate TopUpMore(c: Config, s: State)
    requires WellFormed(c, s) && s.pc.TopUp?
  {
    var j := s.pending[s.pc.k].part;
    |s.parts[j].queue| < c.maxQueue && s.parts[j].cursor < c.plan[j].size
  }

  predicate Working(s: State, k: nat) {
    k < |s.pending| && s.pending[k].sent && !s.pending[k].done && !s.pc.Returned?
  }

  /** A message counts in the pool's queue at least until it is done. */
  function Unfinished(pending: seq<Message>): nat {
    if pending == [] then 0 else Unfinished(pending[..|pending|-1]) + (if pending[|pending|-1].done then 0 else 1)
  }

  predicate Enabled(c: Config, s: State, a: Action) {
    && WellFormed(c, s)
    && match a
       case Initiate(_) => s.pc.Start?
       case Skip => s.pc.Scan? && s.pc.i < |s.parts| && !AtFreshPart(c, s)
       case Enough(queued) => AtFreshPart(c, s) && Unfinished(s.pending) <= queued && c.Room() <= queued
       case AbortScan(queued) => AtFreshPart(c, s) && Unfinished(s.pending) <= queued < c.Room()
       case StartPart(queued, _) => AtFreshPart(c, s) && Unfinished(s.pending) <= queued < c.Room()
       case FillRead(n) => s.pc.Fill? && FillMore(c, s.pc) && CanRead(c, s.pos, n, s.pc.remaining)
       case SendPart => s.pc.Fill? && !FillMore(c, s.pc)
       case ScanEnd => s.pc.Scan? && s.pc.i == |s.parts|
       case Wake => s.pc.Wait?
       case ReapDone => s.pc.Reap? && s.pc.k < |s.pending| && s.pending[s.pc.k].done
       case OpenTopUp(_) => s.pc.Reap? && s.pc.k < |s.pending| && !s.pending[s.pc.k].done
       case TopUpRead(n) =>
         && s.pc.TopUp? && TopUpMore(c, s)
         && var j := s.pending[s.pc.k].part;
            CanRead(c, s.pos, n, c.plan[j].size - s.parts[j].cursor)
       case CloseTopUp => s.pc.TopUp? && !TopUpMore(c, s)
       case ReapEnd => s.pc.Reap? && s.pc.k == |s.pending|
       case ReadFails => (s.pc.Fill? && FillMore(c, s.pc)) || (s.pc.TopUp? && TopUpMore(c, s))
       case AbortWait => s.pc.Wait?
       case Complete(_) => s.pc.Finish?
       case WorkerPop(k) => Working(s, k) && s.parts[s.pending[k].part].queue != []
       case WorkerOk(k) => Working(s, k) && s.pending[k].sawLast
       case WorkerFail(k) => Working(s, k)
  }

  function SetPart(s: State, j: nat, p: PartEntry): State
    requires j < |s.parts|
  {
    s.(parts := s.parts[j := p])
  }

  function SetMessage(s: State, k: nat, m: Message): State
    requires k < |s.pending|
  {
    s.(pending := s.pending[k := m])
  }

  /** A fault after the upload was initiated: it is aborted and the call returns false. */
  function Abort(s: State): State {
    s.(calls := s.calls + [Aborted], pc := Returned(false))
  }

  function DoStartPart(c: Config, s: State): State
    requires WellFormed(c, s) && AtFreshPart(c, s)
  {
    var j := s.pc.i;
    var p := s.parts[j].(inProcess := true, queue := [], hashed := [], attempts := s.parts[j].attempts + 1);
    SetPart(s, j, p).(
      pending := s.pending + [Message(j, false, false, false, [], false)],
      pos := c.plan[j].base,
      pc := Fill(j, c.plan[j].size, 0))
  }

  /** One read of the feed loop: hash it if asked, queue it while there is room. */
  function Feed(c: Config, p: PartEntry, data: seq<byte>, last: bool, records: nat): PartEntry {
    var p' := if c.checksum then p.(hashed := p.hashed + data) else p;
    if records < c.maxQueue then
      p'.(queue := p'.queue + [Chunk(data, last)], cursor := p'.cursor + |data|)
    else p'
  }

  function DoFillRead(c: Config, s: State, n: nat): State
    requires Enabled(c, s, FillRead(n))
  {
    var Fill(j, remaining, records) := s.pc;
    var p' := Feed(c, s.parts[j], c.file[s.pos..s.pos + n], remaining == n, records);
    SetPart(s, j, p').(
      pos := s.pos + n,
      pc := Fill(j, remaining - n, if records < c.maxQueue then records + 1 else records))
  }

  function DoSendPart(c: Config, s: State): State
    requires Enabled(c, s, SendPart)
  {
    var k := |s.pending| - 1;
    SetMessage(s, k, s.pending[k].(sent := true)).(pc := Scan(s.pc.i + 1, true))
  }

  function DoReapDone(c: Config, s: State): State
    requires Enabled(c, s, ReapDone)
  {
    var k := s.pc.k;
    var m := s.pending[k];
    var p := s.parts[m.part];
    if m.error && p.retryNum >= c.maxRetries then Abort(s)
    else
      var p' :=
        if m.error then
          p.(inProcess := false, complete := false, retryNum := p.retryNum + 1, hashed := [], queue := [], cursor := 0)
        else p.(complete := true);
      SetPart(s, m.part, p').(pending := s.pending[..k] + s.pending[k+1..], pc := Reap(k, true))
  }

  function DoTopUpRead(c: Config, s: State, n: nat): State
    requires Enabled(c, s, TopUpRead(n))
  {
    var j := s.pending[s.pc.k].part;
    var p := s.parts[j];
    var chunk := Chunk(c.file[s.pos..s.pos + n], c.plan[j].size <= p.cursor + n);
    SetPart(s, j, p.(queue := p.queue + [chunk], cursor := p.cursor + n)).(pos := s.pos + n)
  }

  function DoWorkerPop(c: Config, s: State, k: nat): State
    requires Enabled(c, s, WorkerPop(k))
  {
    var m := s.pending[k];
    var p := s.parts[m.part];
    SetMessage(SetPart(s, m.part, p.(queue := p.queue[1..])), k,
               m.(consumed := m.consumed + p.queue[0].data, sawLast := m.sawLast || p.queue[0].last))
  }

  /** The server accepted the attempt: it keeps what the worker streamed. */
  function DoWorkerOk(c: Config, s: State, k: nat): State
    requires Enabled(c, s, WorkerOk(k))
  {
    var m := s.pending[k];
    SetMessage(SetPart(s, m.part, s.parts[m.part].(stored := m.consumed)), k, m.(done := true, error := false))
  }

  function Next(c: Config, s: State, a: Action): State
    requires Enabled(c, s, a)
  {
    match a
    case Initiate(ok) => s.(calls := s.calls + [Initiated(ok)], pc := if ok then Scan(0, false) else Returned(false))
    case Skip => s.(pc := Scan(s.pc.i + 1, s.pc.incomplete || !s.parts[s.pc.i].complete))
    case Enough(_) => s.(pc := Wait)
    case AbortScan(_) => Abort(s)
    case StartPart(_, sought) => if sought then DoStartPart(c, s) else Abort(DoStartPart(c, s))
    case FillRead(n) => DoFillRead(c, s, n)
    case SendPart => DoSendPart(c, s)
    case ScanEnd => s.(pc := if s.pc.incomplete then Wait else Finish)
    case Wake => s.(pc := Reap(0, false))
    case ReapDone => DoReapDone(c, s)
    case OpenTopUp(sought) =>
      var j := s.pending[s.pc.k].part;
      if sought then s.(pos := c.plan[j].base + s.parts[j].cursor, pc := TopUp(s.pc.k, s.pc.deleted)) else Abort(s)
    case TopUpRead(n) => DoTopUpRead(c, s, n)
    case CloseTopUp => s.(pc := Reap(s.pc.k + 1, s.pc.deleted))
    case ReapEnd => s.(pc := if s.pc.deleted then Scan(0, false) else Wait)
    case ReadFails => Abort(s)
    case AbortWait => Abort(s)
    case Complete(ok) =>
      var s' := s.(calls := s.calls + [Completed(ok)]);
      if ok then s'.(pc := Returned(true)) else Abort(s')
    case WorkerPop(k) => DoWorkerPop(c, s, k)
    case WorkerOk(k) => DoWorkerOk(c, s, k)
    case WorkerFail(k) => SetMessage(s, k, s.pending[k].(done := true, error := true))
  }

  lemma StartPartResult(c: Config, s: State, queued: nat, sought: bool)
    requires Enabled(c, s, StartPart(queued, sought))
    ensures var j := s.pc.i;
            Next(c, s, StartPart(queued, sought))
            == State(s.parts[j := s.parts[j].(inProcess := true, queue := [], hashed := [], attempts := s.parts[j].attempts + 1)],
                     s.pending + [Message(j, false, false, false, [], false)], c.plan[j].base,
                     if sought then s.calls else s.calls + [Aborted],
                     if sought then Fill(j, c.plan[j].size, 0) else Returned(false))
  {
  }

  /** Any interleaving, from the initial state. */
  ghost predicate IsRun(c: Config, states: seq<State>, actions: seq<Action>) {
    && |states| == |actions| + 1
    && states[0] == Init(c)
    && forall i :: 0 <= i < |actions| ==> Enabled(c, states[i], actions[i]) && states[i+1] == Next(c, states[i], actions[i])
  }

  // ------------------------------------------------------------ invariant

  /** Exactly the chunk that reaches the end of the part is marked last, and nothing follows it. */
  ghost predicate LastMarked(q: seq<Chunk>, sawLast: bool, atEnd: bool) {
    && (forall i :: 0 <= i < |q| && q[i].last ==> i == |q| - 1 && atEnd)
    && (sawLast ==> q == [] && atEnd)
    && (atEnd ==> sawLast || (q != [] && q[|q|-1].last))
  }

  /** One attempt in flight: consumed bytes and queued bytes together are the part up to its cursor. */
  ghost predicate AttemptOk(c: Config, p: PartEntry, m: Message)
    requires c.Valid() && m.part < |c.plan|
  {
    var j := m.part;
    && p.inProcess && !p.complete
    && p.cursor <= c.plan[j].size
    && m.consumed + QueuedBytes(p.queue) == c.Slice(j, p.cursor)
    && LastMarked(p.queue, m.sawLast, p.cursor == c.plan[j].size)
    && |p.queue| <= c.maxQueue
    && (m.sent ==> c.checksum ==> p.hashed == c.Whole(j))
    && (!m.sent ==> !m.done && m.consumed == [] && !m.sawLast)
    && (m.done && !m.error ==> m.sawLast && p.stored == c.Whole(j))
  }

  ghost predicate PartOk(c: Config, j: nat, p: PartEntry)
    requires c.Valid() && j < |c.plan|
  {
    && (p.complete ==> p.inProcess && p.stored == c.Whole(j) && (c.checksum ==> p.hashed == p.stored))
    && (!p.inProcess ==> p.cursor == 0)
    && p.retryNum <= c.maxRetries
    && p.attempts == p.retryNum + (if p.inProcess then 1 else 0)
  }

  ghost predicate HasMessage(s: State, j: nat) {
    exists k :: 0 <= k < |s.pending| && s.pending[k].part == j
  }

  ghost predicate AllComplete(s: State) {
    forall j :: 0 <= j < |s.parts| ==> s.parts[j].complete
  }

  /** How far the feed loop has come with a part. */
  ghost predicate FeedOk(c: Config, j: nat, p: PartEntry, pos: nat, remaining: nat, records: nat)
    requires c.Valid() && j < |c.plan|
  {
    && remaining <= c.plan[j].size
    && pos == c.plan[j].base + c.plan[j].size - remaining
    && |p.queue| == records <= c.maxQueue
    && (records < c.maxQueue ==> p.cursor == c.plan[j].size - remaining)
    && (c.checksum ==> p.hashed == c.Slice(j, c.plan[j].size - remaining))
  }

  ghost predicate FillOk(c: Config, s: State)
    requires c.Valid() && WellFormed(c, s) && s.pc.Fill?
  {
    var m := s.pending[|s.pending|-1];
    m.part == s.pc.i && !m.sent && FeedOk(c, s.pc.i, s.parts[s.pc.i], s.pos, s.pc.remaining, s.pc.records)
  }

  /** What the program counter adds. */
  ghost predicate PcOk(c: Config, s: State)
    requires c.Valid() && WellFormed(c, s)
  {
    && (forall k :: 0 <= k < |s.pending| && !s.pending[k].sent ==> s.pc.Returned? || (s.pc.Fill? && k == |s.pending| - 1))
    && match s.pc
       case Start => s.calls == [] && s.pending == []
       case Scan(i, incomplete) => s.calls == [Initiated(true)] && (!incomplete ==> forall j :: 0 <= j < i ==> s.parts[j].complete)
       case Fill(_, _, _) => s.calls == [Initiated(true)] && FillOk(c, s)
       case Wait => s.calls == [Initiated(true)]
       case Reap(_, _) => s.calls == [Initiated(true)]
       case TopUp(k, _) =>
         var j := s.pending[k].part;
         s.calls == [Initiated(true)] && s.pos == c.plan[j].base + s.parts[j].cursor
       case Finish => s.calls == [Initiated(true)] && AllComplete(s)
       case Returned(ok) =>
         if ok then s.calls == [Initiated(true), Completed(true)] && AllComplete(s)
         else
           || s.calls == [Initiated(false)]
           || s.calls == [Initiated(true), Aborted]
           || s.calls == [Initiated(true), Completed(false), Aborted]
  }

  ghost predicate PendingOk(c: Config, s: State)
    requires c.Valid() && WellFormed(c, s)
  {
    && (forall k :: 0 <= k < |s.pending| ==> AttemptOk(c, s.parts[s.pending[k].part], s.pending[k]))
    && (forall k, l :: 0 <= k < l < |s.pending| ==> s.pending[k].part != s.pending[l].part)
  }

  ghost predicate PartsOk(c: Config, s: State)
    requires c.Valid() && WellFormed(c, s)
  {
    && (forall j :: 0 <= j < |s.parts| ==> PartOk(c, j, s.parts[j]))
    && (forall j :: 0 <= j < |s.parts| && s.parts[j].inProcess && !s.parts[j].complete ==> HasMessage(s, j))
  }

  ghost predicate Invariant(c: Config, s: State) {
    c.Valid() && WellFormed(c, s) && PartsOk(c, s) && PendingOk(c, s) && PcOk(c, s)
  }

  // ------------------------------------------------------- its preservation

  lemma InitKeeps(c: Config)
    requires c.Valid()
    ensures Invariant(c, Init(c))
  {
  }

  lemma SliceExtends(c: Config, j: nat, cursor: nat, n: nat)
    requires c.Valid() && j < |c.plan| && cursor + n <= c.plan[j].size
    ensures var pos := c.plan[j].base + cursor; c.Slice(j, cursor + n) == c.Slice(j, cursor) + c.file[pos..pos + n]
  {
  }

  lemma LastMarkedAppend(q: seq<Chunk>, chunk: Chunk, atEnd: bool)
    requires LastMarked(q, false, false) && chunk.last == atEnd
    ensures LastMarked(q + [chunk], false, atEnd)
  {
  }

  /** Pushing the next bytes of the part keeps the attempt right. */
  lemma PushKeepsAttempt(c: Config, p: PartEntry, m: Message, n: nat, chunk: Chunk)
    requires c.Valid() && m.part < |c.plan| && AttemptOk(c, p, m)
    requires p.cursor + n <= c.plan[m.part].size && p.cursor < c.plan[m.part].size
    requires var pos := c.plan[m.part].base + p.cursor; chunk.data == c.file[pos..pos + n]
    requires chunk.last <==> p.cursor + n == c.plan[m.part].size
    requires |p.queue| < c.maxQueue
    ensures AttemptOk(c, p.(queue := p.queue + [chunk], cursor := p.cursor + n), m)
  {
    QueuedBytesAppend(p.queue, chunk);
    SliceExtends(c, m.part, p.cursor, n);
    Regroup(m.consumed, QueuedBytes(p.queue), chunk.data);
    LastMarkedAppend(p.queue, chunk, p.cursor + n == c.plan[m.part].size);
  }

  /** A step that touches one attempt, its part and its message, leaves all the others alone. */
  lemma LocalUpdateKeeps(c: Config, s: State, s': State, k: nat)
    requires c.Valid() && WellFormed(c, s) && WellFormed(c, s') && PartsOk(c, s) && PendingOk(c, s)
    requires k < |s.pending| == |s'.pending| && s'.pending[k].part == s.pending[k].part
    requires var j := s.pending[k].part;
             && s'.parts == s.parts[j := s'.parts[j]]
             && s'.pending == s.pending[k := s'.pending[k]]
             && PartOk(c, j, s'.parts[j])
             && AttemptOk(c, s'.parts[j], s'.pending[k])
    ensures PartsOk(c, s') && PendingOk(c, s')
  {
    var j := s.pending[k].part;
    SameTargetsKeepMessages(s, s');
    forall l | 0 <= l < |s'.pending| ensures AttemptOk(c, s'.parts[s'.pending[l].part], s'.pending[l]) {
      if l != k {
        assert s.pending[l].part != j;
        assert AttemptOk(c, s.parts[s.pending[l].part], s.pending[l]);
      }
    }
  }

  /** When the pending messages aim at the same parts, the link from parts to messages stays. */
  lemma SameTargetsKeepMessages(s: State, s': State)
    requires |s.pending| == |s'.pending|
    requires forall k :: 0 <= k < |s.pending| ==> s.pending[k].part == s'.pending[k].part
    ensures forall j :: HasMessage(s, j) ==> HasMessage(s', j)
  {
  }

  /** A fresh part has no message, so adding one for it keeps messages and parts apart. */
  lemma AddMessageKeepsPending(c: Config, s: State, s': State, j: nat, p: PartEntry, m: Message)
    requires c.Valid() && WellFormed(c, s) && WellFormed(c, s') && PendingOk(c, s)
    requires j < |s.parts| && !(s.parts[j].inProcess && !s.parts[j].complete)
    requires m.part == j && AttemptOk(c, p, m)
    requires s'.parts == s.parts[j := p] && s'.pending == s.pending + [m]
    ensures PendingOk(c, s')
  {
  }

  lemma AddMessageKeepsParts(c: Config, s: State, s': State, j: nat, p: PartEntry, m: Message)
    requires c.Valid() && WellFormed(c, s) && WellFormed(c, s') && PartsOk(c, s)
    requires j < |s.parts| && m.part == j && PartOk(c, j, p)
    requires s'.parts == s.parts[j := p] && s'.pending == s.pending + [m]
    ensures PartsOk(c, s')
  {
    forall i | 0 <= i < |s'.parts| && s'.parts[i].inProcess && !s'.parts[i].complete ensures HasMessage(s', i) {
      if i == j {
        assert s'.pending[|s.pending|].part == j;
      } else {
        var k :| 0 <= k < |s.pending| && s.pending[k].part == i;
        assert s'.pending[k].part == i;
      }
    }
  }

  /** The first attempt at a part, or the next one after it was reset. */
  lemma FreshAttemptOk(c: Config, s: State, j: nat, p: PartEntry, m: Message)
    requires c.Valid() && WellFormed(c, s) && PartsOk(c, s)
    requires j < |s.parts| && !s.parts[j].complete && !s.parts[j].inProcess
    requires p == s.parts[j].(inProcess := true, queue := [], hashed := [], attempts := s.parts[j].attempts + 1)
    requires m == Message(j, false, false, false, [], false)
    ensures p.cursor == 0 && PartOk(c, j, p) && AttemptOk(c, p, m)
  {
    assert PartOk(c, j, s.parts[j]);
    assert c.plan[j].size >= 1;
    assert m.consumed + QueuedBytes(p.queue) == c.Slice(j, 0);
  }

  lemma StartPartKeeps(c: Config, s: State)
    requires Invariant(c, s) && AtFreshPart(c, s)
    ensures Invariant(c, DoStartPart(c, s))
  {
    hide PendingOk, PartsOk, AttemptOk, PartOk, Unfinished;
    var s' := DoStartPart(c, s);
    var j := s.pc.i;
    var p, m := s'.parts[j], Message(j, false, false, false, [], false);
    FreshAttemptOk(c, s, j, p, m);
    AddMessageKeepsPending(c, s, s', j, p, m);
    AddMessageKeepsParts(c, s, s', j, p, m);
    assert c.checksum ==> p.hashed == c.Slice(j, 0);
    assert FillOk(c, s');
  }

  /** Before a message is sent, what has been hashed for its part does not matter. */
  lemma HashKeepsAttempt(c: Config, p: PartEntry, m: Message, hashed: seq<byte>)
    requires c.Valid() && m.part < |c.plan| && AttemptOk(c, p, m) && PartOk(c, m.part, p) && !m.sent
    ensures AttemptOk(c, p.(hashed := hashed), m) && PartOk(c, m.part, p.(hashed := hashed))
  {
  }

  lemma HashFollows(c: Config, p: PartEntry, j: nat, pos: nat, n: nat, remaining: nat, records: nat)
    requires c.Valid() && j < |c.plan| && FeedOk(c, j, p, pos, remaining, records) && n <= remaining
    ensures c.checksum ==> p.hashed + c.file[pos..pos + n] == c.Slice(j, c.plan[j].size - (remaining - n))
  {
  }

  /** One read of the feed loop, seen from the part alone. */
  lemma FeedKeeps(c: Config, p: PartEntry, m: Message, pos: nat, n: nat, remaining: nat, records: nat)
    requires c.Valid() && m.part < |c.plan| && AttemptOk(c, p, m) && PartOk(c, m.part, p) && !m.sent
    requires FeedOk(c, m.part, p, pos, remaining, records)
    requires 0 < remaining && n <= remaining
    ensures var p' := Feed(c, p, c.file[pos..pos + n], remaining == n, records);
            && PartOk(c, m.part, p') && AttemptOk(c, p', m)
            && FeedOk(c, m.part, p', pos + n, remaining - n, if records < c.maxQueue then records + 1 else records)
  {
    var data := c.file[pos..pos + n];
    var p' := if c.checksum then p.(hashed := p.hashed + data) else p;
    HashKeepsAttempt(c, p, m, p'.hashed);
    if records < c.maxQueue {
      PushKeepsAttempt(c, p', m, n, Chunk(data, remaining == n));
    }
    HashFollows(c, p, m.part, pos, n, remaining, records);
  }

  /** The feed step on the whole state, once its effect on the part is known. */
  lemma FillStepKeeps(c: Config, s: State, p: PartEntry, pos: nat, remaining: nat, records: nat)
    requires Invariant(c, s) && s.pc.Fill?
    requires PartOk(c, s.pc.i, p) && AttemptOk(c, p, s.pending[|s.pending|-1])
    requires FeedOk(c, s.pc.i, p, pos, remaining, records)
    ensures Invariant(c, s.(parts := s.parts[s.pc.i := p], pos := pos, pc := Fill(s.pc.i, remaining, records)))
  {
    var s' := s.(parts := s.parts[s.pc.i := p], pos := pos, pc := Fill(s.pc.i, remaining, records));
    var k := |s.pending| - 1;
    assert s'.pending == s.pending[k := s.pending[k]];
    LocalUpdateKeeps(c, s, s', k);
  }

  lemma FillTargetOk(c: Config, s: State)
    requires Invariant(c, s) && s.pc.Fill?
    ensures c.Valid() && WellFormed(c, s)
    ensures var m, p := s.pending[|s.pending|-1], s.parts[s.pc.i];
            && m.part == s.pc.i && !m.sent && AttemptOk(c, p, m) && PartOk(c, s.pc.i, p)
            && FeedOk(c, s.pc.i, p, s.pos, s.pc.remaining, s.pc.records)
  {
  }

  lemma FillReadEnabled(c: Config, s: State, n: nat)
    requires Enabled(c, s, FillRead(n))
    ensures WellFormed(c, s) && s.pc.Fill? && 0 < s.pc.remaining && n <= s.pc.remaining && s.pos + n <= |c.file|
  {
  }

  lemma FillReadResult(c: Config, s: State, n: nat, p: PartEntry, records: nat)
    requires c.Valid() && WellFormed(c, s) && Enabled(c, s, FillRead(n))
    requires p == Feed(c, s.parts[s.pc.i], c.file[s.pos..s.pos + n], s.pc.remaining == n, s.pc.records)
    requires records == if s.pc.records < c.maxQueue then s.pc.records + 1 else s.pc.records
    ensures DoFillRead(c, s, n) == s.(parts := s.parts[s.pc.i := p], pos := s.pos + n,
                                      pc := Fill(s.pc.i, s.pc.remaining - n, records))
  {
  }

  /** What one read of the feed loop changes. */
  lemma FillReadShape(c: Config, s: State, n: nat) returns (p: PartEntry, records: nat)
    requires Invariant(c, s) && Enabled(c, s, FillRead(n))
    ensures PartOk(c, s.pc.i, p) && AttemptOk(c, p, s.pending[|s.pending|-1])
    ensures FeedOk(c, s.pc.i, p, s.pos + n, s.pc.remaining - n, records)
    ensures DoFillRead(c, s, n) == s.(parts := s.parts[s.pc.i := p], pos := s.pos + n,
                                      pc := Fill(s.pc.i, s.pc.remaining - n, records))
  {
    hide Invariant, Enabled, PartOk, AttemptOk, FeedOk, Feed, DoFillRead;
    FillReadEnabled(c, s, n);
    FillTargetOk(c, s);
    p := Feed(c, s.parts[s.pc.i], c.file[s.pos..s.pos + n], s.pc.remaining == n, s.pc.records);
    records := if s.pc.records < c.maxQueue then s.pc.records + 1 else s.pc.records;
    FeedKeeps(c, s.parts[s.pc.i], s.pending[|s.pending|-1], s.pos, n, s.pc.remaining, s.pc.records);
    FillReadResult(c, s, n, p, records);
  }

  lemma FillReadKeeps(c: Config, s: State, n: nat)
    requires Invariant(c, s) && Enabled(c, s, FillRead(n))
    ensures Invariant(c, DoFillRead(c, s, n))
  {
    hide Invariant, Enabled, PartOk, AttemptOk, FeedOk, DoFillRead;
    FillReadEnabled(c, s, n);
    var p, records := FillReadShape(c, s, n);
    FillStepKeeps(c, s, p, s.pos + n, s.pc.remaining - n, records);
  }

  lemma SendKeepsAttempt(c: Config, p: PartEntry, m: Message)
    requires c.Valid() && m.part < |c.plan| && AttemptOk(c, p, m)
    requires c.checksum ==> p.hashed == c.Whole(m.part)
    ensures AttemptOk(c, p, m.(sent := true))
  {
  }

  lemma SendPartKeepsPc(c: Config, s: State)
    requires Invariant(c, s) && Enabled(c, s, SendPart)
    ensures WellFormed(c, DoSendPart(c, s)) && PcOk(c, DoSendPart(c, s))
  {
  }

  lemma SendPartKeeps(c: Config, s: State)
    requires Invariant(c, s) && Enabled(c, s, SendPart)
    ensures Invariant(c, DoSendPart(c, s))
  {
    var s' := DoSendPart(c, s);
    var k := |s.pending| - 1;
    var j := s.pending[k].part;
    hide PcOk;
    SendPartKeepsPc(c, s);
    assert AttemptOk(c, s.parts[j], s.pending[k]) && PartOk(c, j, s.parts[j]);
    SendKeepsAttempt(c, s.parts[j], s.pending[k]);
    assert s'.parts == s.parts[j := s.parts[j]];
    LocalUpdateKeeps(c, s, s', k);
  }

  lemma ReapDoneKeeps(c: Config, s: State)
    requires Invariant(c, s) && Enabled(c, s, ReapDone)
    ensures Invariant(c, DoReapDone(c, s))
  {
    var s' := DoReapDone(c, s);
    if s'.pc.Reap? {
      ReapDeletes(c, s);
    } else {
      QuietKeeps(c, s, s');
    }
  }

  /** Erasing the message of a part that is no longer in flight. */
  lemma EraseKeepsPending(c: Config, s: State, s': State, k: nat)
    requires c.Valid() && WellFormed(c, s) && WellFormed(c, s') && PendingOk(c, s)
    requires k < |s.pending| && s'.pending == s.pending[..k] + s.pending[k+1..]
    requires |s'.parts| == |s.parts| && s'.parts == s.parts[s.pending[k].part := s'.parts[s.pending[k].part]]
    ensures PendingOk(c, s')
  {
    forall l | 0 <= l < |s'.pending| ensures AttemptOk(c, s'.parts[s'.pending[l].part], s'.pending[l]) {
      var l' := if l < k then l else l + 1;
      assert s'.pending[l] == s.pending[l'];
      assert AttemptOk(c, s.parts[s.pending[l'].part], s.pending[l']);
    }
  }

  lemma EraseKeepsParts(c: Config, s: State, s': State, k: nat)
    requires c.Valid() && WellFormed(c, s) && WellFormed(c, s') && PartsOk(c, s)
    requires k < |s.pending| && s'.pending == s.pending[..k] + s.pending[k+1..]
    requires var j := s.pending[k].part;
             && |s'.parts| == |s.parts| && s'.parts == s.parts[j := s'.parts[j]]
             && PartOk(c, j, s'.parts[j]) && !(s'.parts[j].inProcess && !s'.parts[j].complete)
    ensures PartsOk(c, s')
  {
    forall i | 0 <= i < |s'.parts| && s'.parts[i].inProcess && !s'.parts[i].complete ensures HasMessage(s', i) {
      var l :| 0 <= l < |s.pending| && s.pending[l].part == i;
      assert s'.pending[if l < k then l else l - 1].part == i;
    }
  }

  lemma ReapLeavesPc(c: Config, s: State)
    requires Invariant(c, s) && Enabled(c, s, ReapDone)
    requires DoReapDone(c, s).pc.Reap?
    ensures WellFormed(c, DoReapDone(c, s)) && PcOk(c, DoReapDone(c, s))
  {
    hide PartsOk, PendingOk;
    var k := s.pc.k;
    var s' := DoReapDone(c, s);
    forall l | 0 <= l < |s'.pending| ensures s'.pending[l] == s.pending[if l < k then l else l + 1] {
    }
  }

  lemma ReapDeletes(c: Config, s: State)
    requires Invariant(c, s) && Enabled(c, s, ReapDone)
    requires DoReapDone(c, s).pc.Reap?
    ensures Invariant(c, DoReapDone(c, s))
  {
    var s' := DoReapDone(c, s);
    var k := s.pc.k;
    var m := s.pending[k];
    hide PcOk;
    ReapLeavesPc(c, s);
    assert AttemptOk(c, s.parts[m.part], m) && PartOk(c, m.part, s.parts[m.part]);
    assert PartOk(c, m.part, s'.parts[m.part]);
    hide PartsOk, PendingOk, AttemptOk, PartOk;
    EraseKeepsPending(c, s, s', k);
    EraseKeepsParts(c, s, s', k);
  }

  lemma TopUpReadLeavesPc(c: Config, s: State, n: nat)
    requires Invariant(c, s) && Enabled(c, s, TopUpRead(n))
    ensures WellFormed(c, DoTopUpRead(c, s, n)) && PcOk(c, DoTopUpRead(c, s, n))
  {
    hide PartsOk, PendingOk;
  }

  lemma TopUpReadKeeps(c: Config, s: State, n: nat)
    requires Invariant(c, s) && Enabled(c, s, TopUpRead(n))
    ensures Invariant(c, DoTopUpRead(c, s, n))
  {
    var s' := DoTopUpRead(c, s, n);
    var k := s.pc.k;
    var m := s.pending[k];
    var p := s.parts[m.part];
    TopUpReadLeavesPc(c, s, n);
    hide PcOk;
    assert AttemptOk(c, p, m) && PartOk(c, m.part, p);
    PushKeepsAttempt(c, p, m, n, Chunk(c.file[s.pos..s.pos + n], c.plan[m.part].size <= p.cursor + n));
    assert PartOk(c, m.part, s'.parts[m.part]);
    hide PartOk, AttemptOk;
    assert s'.pending == s.pending[k := m];
    LocalUpdateKeeps(c, s, s', k);
  }

  lemma PopKeepsAttempt(c: Config, p: PartEntry, m: Message)
    requires c.Valid() && m.part < |c.plan| && AttemptOk(c, p, m)
    requires m.sent && !m.done && p.queue != []
    ensures var first := p.queue[0];
            AttemptOk(c, p.(queue := p.queue[1..]), m.(consumed := m.consumed + first.data, sawLast := m.sawLast || first.last))
  {
  }

  lemma WorkerPopKeeps(c: Config, s: State, k: nat)
    requires Invariant(c, s) && Enabled(c, s, WorkerPop(k))
    ensures Invariant(c, DoWorkerPop(c, s, k))
  {
    var s' := DoWorkerPop(c, s, k);
    var m := s.pending[k];
    assert PartOk(c, m.part, s.parts[m.part]);
    PopKeepsAttempt(c, s.parts[m.part], m);
    assert WellFormed(c, s');
    LocalUpdateKeeps(c, s, s', k);
    WorkerLeavesPc(c, s, s', k);
  }

  lemma WorkerOkKeeps(c: Config, s: State, k: nat)
    requires Invariant(c, s) && Enabled(c, s, WorkerOk(k))
    ensures Invariant(c, DoWorkerOk(c, s, k))
  {
    var s' := DoWorkerOk(c, s, k);
    var m := s.pending[k];
    assert AttemptOk(c, s.parts[m.part], m) && PartOk(c, m.part, s.parts[m.part]);
    assert m.consumed + [] == m.consumed;
    assert WellFormed(c, s');
    assert AttemptOk(c, s'.parts[m.part], s'.pending[k]);
    LocalUpdateKeeps(c, s, s', k);
    WorkerLeavesPc(c, s, s', k);
  }

  lemma WorkerFailKeeps(c: Config, s: State, k: nat)
    requires Invariant(c, s) && Enabled(c, s, WorkerFail(k))
    ensures Invariant(c, Next(c, s, WorkerFail(k)))
  {
    var s' := Next(c, s, WorkerFail(k));
    var m := s.pending[k];
    assert AttemptOk(c, s.parts[m.part], m) && PartOk(c, m.part, s.parts[m.part]);
    assert WellFormed(c, s');
    assert s'.parts == s.parts[m.part := s.parts[m.part]];
    LocalUpdateKeeps(c, s, s', k);
    WorkerLeavesPc(c, s, s', k);
  }

  /** A worker's step does not disturb what the coordinator relies on. */
  lemma WorkerLeavesPc(c: Config, s: State, s': State, k: nat)
    requires Invariant(c, s) && WellFormed(c, s') && Working(s, k)
    requires s' == s.(parts := s'.parts, pending := s'.pending)
    requires |s'.parts| == |s.parts| && |s'.pending| == |s.pending|
    requires var m, m' := s.pending[k], s'.pending[k];
             && m'.part == m.part && m'.sent
             && s'.pending == s.pending[k := m']
             && s'.parts == s.parts[m.part := s'.parts[m.part]]
             && s'.parts[m.part].cursor == s.parts[m.part].cursor
             && s'.parts[m.part].complete == s.parts[m.part].complete
    ensures PcOk(c, s')
  {
    hide PartsOk, AttemptOk, Unfinished;
    assert s.pc.Fill? ==> k != |s.pending| - 1;
  }

  /** Steps that move only the program counter, the stream position and the server log. */
  lemma QuietKeeps(c: Config, s: State, s': State)
    requires Invariant(c, s) && WellFormed(c, s')
    requires s'.parts == s.parts && s'.pending == s.pending
    requires PcOk(c, s')
    ensures Invariant(c, s')
  {
  }

  lemma ScanStepKeepsPc(c: Config, s: State, a: Action)
    requires Invariant(c, s) && Enabled(c, s, a)
    requires a.Initiate? || a.Skip? || a.Enough? || a.ScanEnd?
    ensures WellFormed(c, Next(c, s, a)) && PcOk(c, Next(c, s, a))
  {
    hide PartsOk, PendingOk, Unfinished;
  }

  lemma ReapStepKeepsPc(c: Config, s: State, a: Action)
    requires Invariant(c, s) && Enabled(c, s, a)
    requires a.Wake? || (a.OpenTopUp? && a.sought) || a.CloseTopUp? || a.ReapEnd?
    ensures WellFormed(c, Next(c, s, a)) && PcOk(c, Next(c, s, a))
  {
    hide PartsOk, PendingOk, Unfinished;
  }

  /** A fault leaves parts and messages as they are. */
  lemma AbortKeeps(c: Config, s: State)
    requires Invariant(c, s) && (s.pc.Scan? || s.pc.Fill? || s.pc.Wait? || s.pc.Reap? || s.pc.TopUp?)
    ensures Invariant(c, Abort(s))
  {
    hide PartsOk, PendingOk;
    assert Abort(s).calls == [Initiated(true), Aborted];
    QuietKeeps(c, s, Abort(s));
  }

  lemma FaultKeeps(c: Config, s: State, a: Action)
    requires Invariant(c, s) && Enabled(c, s, a) && (a.AbortScan? || a.AbortWait? || a.ReadFails? || (a.OpenTopUp? && !a.sought))
    ensures Invariant(c, Next(c, s, a))
  {
    AbortKeeps(c, s);
    hide Invariant;
  }

  lemma CompleteKeepsPc(c: Config, s: State, ok: bool)
    requires Invariant(c, s) && Enabled(c, s, Complete(ok))
    ensures WellFormed(c, Next(c, s, Complete(ok))) && PcOk(c, Next(c, s, Complete(ok)))
  {
    hide PartsOk, PendingOk, Unfinished;
    if !ok {
      assert Next(c, s, Complete(ok)).calls == [Initiated(true), Completed(false), Aborted];
    }
  }

  lemma PcStepKeeps(c: Config, s: State, a: Action)
    requires Invariant(c, s) && Enabled(c, s, a)
    requires a.Initiate? || a.Skip? || a.Enough? || a.ScanEnd? || a.Wake? || (a.OpenTopUp? && a.sought) || a.CloseTopUp? || a.ReapEnd?
             || a.Complete?
    ensures Invariant(c, Next(c, s, a))
  {
    hide Invariant, Enabled, PcOk, WellFormed;
    if a.Complete? {
      CompleteKeepsPc(c, s, a.ok);
    } else if a.Initiate? || a.Skip? || a.Enough? || a.ScanEnd? {
      ScanStepKeepsPc(c, s, a);
    } else {
      ReapStepKeepsPc(c, s, a);
    }
    QuietKeeps(c, s, Next(c, s, a));
  }

  lemma StartStepKeeps(c: Config, s: State, queued: nat, sought: bool)
    requires Invariant(c, s) && Enabled(c, s, StartPart(queued, sought))
    ensures Invariant(c, Next(c, s, StartPart(queued, sought)))
  {
    StartPartKeeps(c, s);
    var started := DoStartPart(c, s);
    assert started.pc.Fill?;
    hide Invariant, Enabled, DoStartPart;
    if !sought {
      AbortKeeps(c, started);
    }
  }

  /** Every action of the coordinator or of a worker keeps the invariant. */
  lemma NextKeeps(c: Config, s: State, a: Action)
    requires Invariant(c, s) && Enabled(c, s, a)
    ensures Invariant(c, Next(c, s, a))
  {
    hide Invariant, Enabled, DoStartPart, DoFillRead, DoSendPart, DoReapDone, DoTopUpRead, DoWorkerPop, DoWorkerOk;
    if a.StartPart? {
      StartStepKeeps(c, s, a.queued, a.sought);
    } else if a.AbortScan? || a.AbortWait? || a.ReadFails? || (a.OpenTopUp? && !a.sought) {
      FaultKeeps(c, s, a);
    } else if a.FillRead? {
      FillReadKeeps(c, s, a.n);
    } else if a.SendPart? {
      SendPartKeeps(c, s);
    } else if a.ReapDone? {
      ReapDoneKeeps(c, s);
    } else if a.TopUpRead? {
      TopUpReadKeeps(c, s, a.n);
    } else if a.WorkerPop? {
      WorkerPopKeeps(c, s, a.k);
    } else if a.WorkerOk? {
      WorkerOkKeeps(c, s, a.k);
    } else if a.WorkerFail? {
      WorkerFailKeeps(c, s, a.k);
    } else {
      PcStepKeeps(c, s, a);
    }
  }

  lemma {:induction false} RunKeeps(c: Config, states: seq<State>, actions: seq<Action>, i: nat)
    requires c.Valid() && IsRun(c, states, actions) && i < |states|
    ensures Invariant(c, states[i])
  {
    hide Invariant, Enabled, Next;
    if i == 0 {
      InitKeeps(c);
    } else {
      RunKeeps(c, states, actions, i - 1);
      NextKeeps(c, states[i-1], actions[i-1]);
    }
  }

  // ------------------------------------------------------- what a run means

  /** The parts' stored bytes, in part-list order. */
  function Assembled(parts: seq<PartEntry>): seq<byte> {
    if parts == [] then [] else Assembled(parts[..|parts|-1]) + parts[|parts|-1].stored
  }

  lemma PrefixExtends(file: seq<byte>, base: nat, size: nat)
    requires base + size <= |file|
    ensures file[..base] + file[base..base + size] == file[..base + size]
  {
  }

  lemma {:induction false} AssembledIsPrefix(c: Config, parts: seq<PartEntry>, n: nat)
    requires c.Valid() && 1 <= n <= |parts| == |c.plan|
    requires forall j :: 0 <= j < |parts| ==> parts[j].stored == c.Whole(j)
    ensures Assembled(parts[..n]) == c.file[..c.plan[n-1].base + c.plan[n-1].size]
  {
    var p := c.plan[n-1];
    assert parts[..n][..n-1] == parts[..n-1];
    assert Assembled(parts[..n]) == Assembled(parts[..n-1]) + c.Whole(n - 1);
    if n == 1 {
      assert Assembled(parts[..0]) == [];
    } else {
      AssembledIsPrefix(c, parts, n - 1);
      assert PartPlan.Adjacent(c.plan, n - 1);
    }
    PrefixExtends(c.file, p.base, p.size);
  }

  lemma ReturnedTrueIsWhole(c: Config, s: State)
    requires Invariant(c, s) && s.pc == Returned(true)
    ensures Assembled(s.parts) == c.file
  {
    forall j | 0 <= j < |s.parts| ensures s.parts[j].stored == c.Whole(j) {
      assert PartOk(c, j, s.parts[j]);
    }
    AssembledIsPrefix(c, s.parts, |s.parts|);
    assert s.parts[..|s.parts|] == s.parts;
    assert c.file[..|c.file|] == c.file;
  }

  /**
    If the upload returns true, the server was told to complete it, exactly once,
    and what it then holds is the file, byte for byte.  If it returns false, the
    upload was either never started or aborted, and never completed.
  */
  lemma UploadIsFaithful(c: Config, states: seq<State>, actions: seq<Action>, i: nat)
    requires c.Valid() && IsRun(c, states, actions) && i < |states|
    ensures states[i].pc == Returned(true) ==>
              Assembled(states[i].parts) == c.file && states[i].calls == [Initiated(true), Completed(true)]
    ensures states[i].pc == Returned(false) ==>
              || states[i].calls == [Initiated(false)]
              || states[i].calls == [Initiated(true), Aborted]
              || states[i].calls == [Initiated(true), Completed(false), Aborted]
    ensures !states[i].pc.Returned? ==> states[i].calls == [] || states[i].calls == [Initiated(true)]
  {
    RunKeeps(c, states, actions, i);
    if states[i].pc == Returned(true) {
      ReturnedTrueIsWhole(c, states[i]);
    }
  }

  /**
    At every step of every run: a part has exactly one pending message while it is
    in process and not complete, and none otherwise; it is never attempted more than
    maxRetries + 1 times; its queue never exceeds the limit.
  */
  lemma OneMessagePerPart(c: Config, states: seq<State>, actions: seq<Action>, i: nat, j: nat)
    requires c.Valid() && IsRun(c, states, actions) && i < |states| && j < |c.plan|
    ensures var s := states[i];
            && |s.parts| == |c.plan|
            && ((s.parts[j].inProcess && !s.parts[j].complete) <==> HasMessage(s, j))
            && (forall k, l :: 0 <= k < |s.pending| && 0 <= l < |s.pending| && s.pending[k].part == j && s.pending[l].part == j ==> k == l)
            && s.parts[j].attempts <= c.maxRetries + 1
            && (HasMessage(s, j) ==> |s.parts[j].queue| <= c.maxQueue)
  {
    RunKeeps(c, states, actions, i);
    var s := states[i];
    assert PartOk(c, j, s.parts[j]);
    if HasMessage(s, j) {
      var k :| 0 <= k < |s.pending| && s.pending[k].part == j;
      assert AttemptOk(c, s.parts[j], s.pending[k]);
    }
  }

  /**
    Within an attempt: consumed bytes followed by queued bytes are the part from its base
    to its cursor; a chunk is marked last exactly when it ends the part, and then it is the
    tail of the queue; with checksums on, what was hashed for a complete part is what the
    server holds for it.
  */
  lemma StreamIsInOrder(c: Config, states: seq<State>, actions: seq<Action>, i: nat, k: nat)
    requires c.Valid() && IsRun(c, states, actions) && i < |states| && k < |states[i].pending|
    ensures var s := states[i];
            var m := s.pending[k];
            && |s.parts| == |c.plan| && m.part < |s.parts|
            && s.parts[m.part].cursor <= c.plan[m.part].size
            && m.consumed + QueuedBytes(s.parts[m.part].queue) == c.Slice(m.part, s.parts[m.part].cursor)
            && LastMarked(s.parts[m.part].queue, m.sawLast, s.parts[m.part].cursor == c.plan[m.part].size)
            && (c.checksum && m.done && !m.error ==> s.parts[m.part].hashed == s.parts[m.part].stored == m.consumed)
  {
    RunKeeps(c, states, actions, i);
    var m := states[i].pending[k];
    assert AttemptOk(c, states[i].parts[m.part], m);
    assert m.consumed + [] == m.consumed;
  }

  // ------------------------------------------------------------ run length

  /** The attempts a part may still make: none once it is complete. */
  ghost function OpenAttempts(c: Config, p: PartEntry): nat {
    if p.complete || p.retryNum > c.maxRetries then 0 else c.maxRetries + 1 - p.retryNum
  }

  /** The attempts all parts may still make. */
  ghost function AttemptsLeft(c: Config, parts: seq<PartEntry>): nat {
    if parts == [] then 0 else OpenAttempts(c, parts[|parts|-1]) + AttemptsLeft(c, parts[..|parts|-1])
  }

  lemma {:induction false} AttemptsLeftUpdate(c: Config, parts: seq<PartEntry>, j: nat, p: PartEntry)
    requires j < |parts|
    ensures AttemptsLeft(c, parts[j := p]) + OpenAttempts(c, parts[j]) == AttemptsLeft(c, parts) + OpenAttempts(c, p)
  {
    var n := |parts| - 1;
    if j == n {
      assert parts[j := p][..n] == parts[..n];
    } else {
      AttemptsLeftUpdate(c, parts[..n], j, p);
      assert parts[j := p][..n] == parts[..n][j := p];
    }
  }

  function Reaps(actions: seq<Action>): nat {
    if actions == [] then 0 else Reaps(actions[..|actions|-1]) + (if actions[|actions|-1].ReapDone? then 1 else 0)
  }

  /** Every reaped message uses up an attempt, unless it ends the upload. */
  lemma ReapUsesAttempt(c: Config, s: State)
    requires Invariant(c, s) && Enabled(c, s, ReapDone)
    ensures var s' := DoReapDone(c, s);
            AttemptsLeft(c, s'.parts) + (if s'.pc.Returned? then 0 else 1) <= AttemptsLeft(c, s.parts)
  {
    var s' := DoReapDone(c, s);
    var m := s.pending[s.pc.k];
    if s'.pc.Reap? {
      assert AttemptOk(c, s.parts[m.part], m);
      assert PartOk(c, m.part, s.parts[m.part]);
      AttemptsLeftUpdate(c, s.parts, m.part, s'.parts[m.part]);
    }
  }

  /** The part an action writes, if it writes one. */
  ghost function Touched(s: State, a: Action): int {
    match a
    case StartPart(_, _) => if s.pc.Scan? then s.pc.i else -1
    case FillRead(_) => if s.pc.Fill? then s.pc.i else -1
    case TopUpRead(_) => if s.pc.TopUp? && s.pc.k < |s.pending| then s.pending[s.pc.k].part else -1
    case WorkerPop(k) => if k < |s.pending| then s.pending[k].part else -1
    case WorkerOk(k) => if k < |s.pending| then s.pending[k].part else -1
    case _ => -1
  }

  /** Nothing else takes an attempt or gives one back. */
  lemma OthersKeepAttempts(c: Config, s: State, a: Action)
    requires Enabled(c, s, a) && !a.ReapDone?
    ensures AttemptsLeft(c, Next(c, s, a).parts) == AttemptsLeft(c, s.parts)
  {
    var s' := Next(c, s, a);
    var j := Touched(s, a);
    if j >= 0 {
      assert s'.parts == s.parts[j := s'.parts[j]];
      AttemptsLeftUpdate(c, s.parts, j, s'.parts[j]);
    } else {
      assert s'.parts == s.parts;
    }
  }

  lemma {:induction false} AttemptsLeftInit(c: Config, n: nat)
    ensures AttemptsLeft(c, seq(n, _ => NEW_PART)) == n * (c.maxRetries + 1)
  {
    if n > 0 {
      AttemptsLeftInit(c, n - 1);
      assert seq(n, _ => NEW_PART)[..n-1] == seq(n - 1, _ => NEW_PART);
    }
  }

  lemma NothingAfterReturn(c: Config, s: State, a: Action)
    requires Enabled(c, s, a)
    ensures !s.pc.Returned?
  {
  }

  lemma StepReaps(c: Config, s: State, a: Action)
    requires Invariant(c, s) && Enabled(c, s, a)
    ensures var s' := Next(c, s, a);
            && !s.pc.Returned?
            && (if a.ReapDone? then 1 else 0) + AttemptsLeft(c, s'.parts) <= AttemptsLeft(c, s.parts) + (if s'.pc.Returned? then 1 else 0)
  {
    hide Invariant, AttemptsLeft, DoReapDone, Enabled;
    NothingAfterReturn(c, s, a);
    if a.ReapDone? {
      ReapUsesAttempt(c, s);
    } else {
      OthersKeepAttempts(c, s, a);
    }
  }

  /** Bounds the messages reaped in any run, one per attempt the parts are allowed, plus a last fatal one. */
  lemma {:induction false} ReapsAreBounded(c: Config, states: seq<State>, actions: seq<Action>)
    requires c.Valid() && IsRun(c, states, actions)
    ensures var last := states[|actions|];
            && Reaps(actions) + AttemptsLeft(c, last.parts) <= |c.plan| * (c.maxRetries + 1) + (if last.pc.Returned? then 1 else 0)
    decreases |actions|
  {
    hide Invariant, Enabled, Next, AttemptsLeft;
    var n := |actions|;
    if n == 0 {
      AttemptsLeftInit(c, |c.plan|);
    } else {
      ReapsAreBounded(c, states[..n], actions[..n-1]);
      RunKeeps(c, states, actions, n - 1);
      assert states[..n][n-1] == states[n-1];
      StepReaps(c, states[n-1], actions[n-1]);
    }
  }

  // ------------------------------------------------------- from the planner

  lemma {:induction false} PartsLieInFile(parts: seq<PartPlan.Part>, fileSize: nat, j: nat)
    requires PartPlan.IsCover(parts, fileSize) && j < |parts|
    ensures parts[j].base + parts[j].size <= fileSize
    decreases |parts| - j
  {
    if j < |parts| - 1 {
      PartsLieInFile(parts, fileSize, j + 1);
      assert PartPlan.Adjacent(parts, j + 1);
    }
  }

  /** Whatever the planner accepts, with any limits, is a valid upload to run. */
  lemma PlannedUploadIsValid(file: seq<byte>, partSizeMb: nat, bufSize: nat, checksum: bool, maxQueueSize: nat, maxRetries: nat, maxThreads: nat)
    requires partSizeMb >= 1 && !PartPlan.Declined(|file|, partSizeMb)
    ensures var length := PartPlan.PartLength(|file|, partSizeMb);
            length > 0
            && Config(file, PartPlan.PartsFrom(0, 1, |file|, length), bufSize, checksum, QueueLimit(maxQueueSize), maxRetries, maxThreads).Valid()
  {
    PartPlan.PlanIsGood(|file|, partSizeMb);
    var plan := PartPlan.PartsFrom(0, 1, |file|, PartPlan.PartLength(|file|, partSizeMb));
    forall j | 0 <= j < |plan| ensures plan[j].base + plan[j].size <= |file| {
      PartsLieInFile(plan, |file|, j);
    }
  }
}
