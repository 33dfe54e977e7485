/**
  S3Read: a worker thread downloads an object and pushes its chunks on a queue; the
  calling thread takes them off and writes them to a stream.

  The worker runs between any two observations the caller makes.  A `Moment` says
  what the worker did before one such observation and what the caller then finds,
  so a sequence of moments is one interleaving of the two threads.
*/
module S3Read {
  import opened Bytes
  import opened StreamData

  // The download pushes data, then one chunk marked last; it returns, its thread sets the done flag, and the thread ends.
  datatype WorkerAct = PushData(data: seq<byte>) | PushLast | Return(ok: bool) | SetDone | End

  // `sent` is every byte pushed so far: the object, once `lastSent` holds.
  datatype Worker = Worker(queue: seq<Chunk>, sent: seq<byte>, lastSent: bool, returned: bool, error: bool, done: bool, active: bool)

  /** A thread may end, or be ended, at any point; a download that returns no error has pushed the last chunk. */
  function Act(w: Worker, a: WorkerAct): Worker {
    match a
    case PushData(data) =>
      if !w.active || w.returned || w.lastSent then w else w.(queue := w.queue + [Chunk(data, false)], sent := w.sent + data)
    case PushLast =>
      if !w.active || w.returned || w.lastSent then w else w.(queue := w.queue + [Chunk([], true)], lastSent := true)
    case Return(ok) =>
      if !w.active || w.returned then w else w.(returned := true, error := !(ok && w.lastSent))
    case SetDone =>
      if !w.active || !w.returned then w else w.(done := true)
    case End =>
      w.(active := false)
  }

  function Advance(w: Worker, acts: seq<WorkerAct>): Worker
    decreases |acts|
  {
    if acts == [] then w else Advance(Act(w, acts[0]), acts[1..])
  }

  // What the caller meets at one observation; `written` is how much a failing write still wrote.
  datatype Moment = Moment(acts: seq<WorkerAct>, aborted: bool, waitFailed: bool, exitFlag: bool, writeFails: bool, written: nat)

  datatype Pc = Wait | TestEmpty | TakeChunk | CheckEnd | Stopped

  /** `taken` is the data of every chunk popped, `byLast` says that the last chunk was. */
  datatype State = State(pc: Pc, w: Worker, taken: seq<byte>, written: seq<byte>, byLast: bool, failed: bool)

  const INIT := State(Wait, Worker([], [], false, false, false, false, true), [], [], false, false)

  function Written(data: seq<byte>, m: Moment): seq<byte> {
    if m.writeFails && m.written < |data| then data[..m.written] else data
  }

  function Take(s: State, m: Moment): State
    requires s.w.queue != []
  {
    var chunk := s.w.queue[0];
    var s' := s.(w := s.w.(queue := s.w.queue[1..]), taken := s.taken + chunk.data);
    if chunk.data != [] && m.writeFails then s'.(written := s.written + Written(chunk.data, m), failed := true, pc := CheckEnd)
    else if chunk.last then s'.(written := s.written + chunk.data, byLast := true, pc := CheckEnd)
    else s'.(written := s.written + chunk.data, pc := TestEmpty)
  }

  function CheckAbort(s: State, m: Moment): State {
    if m.aborted || m.waitFailed then s.(failed := true, pc := Stopped) else s.(pc := TestEmpty)
  }

  function CheckFlags(s: State, m: Moment): State {
    if m.exitFlag then s.(failed := true, pc := Stopped)
    else if s.failed || s.w.done || (!s.w.active && s.w.error) || s.byLast then s.(pc := Stopped)
    else s.(pc := Wait)
  }

  function WorkerMoves(s: State, m: Moment): State {
    s.(w := Advance(s.w, m.acts))
  }

  /** The worker moves, then the caller makes its next observation. */
  function Step(s0: State, m: Moment): State {
    var s := WorkerMoves(s0, m);
    match s.pc
    case Wait => CheckAbort(s, m)
    case TestEmpty => s.(pc := if s.w.queue == [] then CheckEnd else TakeChunk)
    case TakeChunk => if s.w.queue == [] then s else Take(s, m)
    case CheckEnd => CheckFlags(s, m)
    case Stopped => s
  }

  /** The state after the first `t` moments. */
  function Play(moments: seq<Moment>, t: nat): State
    requires t <= |moments|
  {
    if t == 0 then INIT else Step(Play(moments, t - 1), moments[t-1])
  }

  /** S3Read returns no error: its loop is over without one, the worker has ended, and it left none. */
  predicate Succeeds(s: State) {
    s.pc == Stopped && !s.failed && !s.w.active && !s.w.error
  }

  /** Only the end of the queue can be the last chunk, and it is there until the caller takes it. */
  ghost predicate Flow(w: Worker, taken: seq<byte>, byLast: bool) {
    && taken + QueuedBytes(w.queue) == w.sent
    && (forall i :: 0 <= i < |w.queue| ==> (w.queue[i].last <==> w.lastSent && !byLast && i == |w.queue| - 1))
    && (byLast ==> w.lastSent && w.queue == [])
    && (w.lastSent && !byLast ==> w.queue != [])
    && (forall i :: 0 <= i < |w.queue| && w.queue[i].last ==> w.queue[i].data == [])
    && (w.returned && !w.error ==> w.lastSent)
    && (w.error || w.done ==> w.returned)
  }

  /** Nothing more will be pushed. */
  predicate Complete(w: Worker) {
    w.returned || w.lastSent
  }

  lemma ActKeepsFlow(w: Worker, a: WorkerAct, taken: seq<byte>, byLast: bool)
    requires Flow(w, taken, byLast)
    ensures Flow(Act(w, a), taken, byLast)
    ensures Complete(w) ==> Complete(Act(w, a)) && Act(w, a).sent == w.sent && Act(w, a).queue == w.queue
    ensures w.queue <= Act(w, a).queue
    ensures w.returned ==> Act(w, a).returned && Act(w, a).error == w.error
  {
    if a.PushData? {
      QueuedBytesAppend(w.queue, Chunk(a.data, false));
    } else if a.PushLast? {
      QueuedBytesAppend(w.queue, Chunk([], true));
    }
  }

  lemma {:induction false} AdvanceKeepsFlow(w: Worker, acts: seq<WorkerAct>, taken: seq<byte>, byLast: bool)
    requires Flow(w, taken, byLast)
    ensures Flow(Advance(w, acts), taken, byLast)
    ensures w.queue <= Advance(w, acts).queue
    ensures Complete(w) ==> Complete(Advance(w, acts)) && Advance(w, acts).sent == w.sent && Advance(w, acts).queue == w.queue
    ensures w.returned ==> Advance(w, acts).returned && Advance(w, acts).error == w.error
    decreases |acts|
  {
    if acts != [] {
      ActKeepsFlow(w, acts[0], taken, byLast);
      AdvanceKeepsFlow(Act(w, acts[0]), acts[1..], taken, byLast);
    }
  }

  ghost predicate Invariant(s: State) {
    && Flow(s.w, s.taken, s.byLast)
    && (s.pc == TakeChunk ==> s.w.queue != [])
    && (s.byLast || s.failed ==> s.pc == CheckEnd || s.pc == Stopped)
    && s.written <= s.taken
    && (!s.failed || s.byLast ==> s.written == s.taken)
    && (s.pc == CheckEnd && !s.byLast && !s.failed ==> s.w.queue == [])
    && (s.pc == Stopped ==> s.failed || s.w.returned || s.byLast)
  }

  lemma TakeKeeps(s: State, m: Moment)
    requires Invariant(s) && s.pc == TakeChunk
    ensures Invariant(Take(s, m))
  {
    var chunk := s.w.queue[0];
    assert (s.taken + chunk.data) + QueuedBytes(s.w.queue[1..]) == s.w.sent;
    assert Written(chunk.data, m) <= chunk.data;
  }

  lemma StepKeeps(s: State, m: Moment)
    requires Invariant(s)
    ensures Invariant(Step(s, m))
  {
    AdvanceKeepsFlow(s.w, m.acts, s.taken, s.byLast);
    hide Flow, Advance;
    if s.pc == TakeChunk {
      TakeKeeps(s.(w := Advance(s.w, m.acts)), m);
    }
  }

  lemma {:induction false} PlayKeeps(moments: seq<Moment>, t: nat)
    requires t <= |moments|
    ensures Invariant(Play(moments, t))
  {
    if t > 0 {
      PlayKeeps(moments, t - 1);
      StepKeeps(Play(moments, t - 1), moments[t-1]);
    }
  }

  /** Whatever the interleaving and the failures, the stream holds an in-order prefix of what the worker pushed. */
  lemma WritesAPrefix(moments: seq<Moment>, t: nat)
    requires t <= |moments|
    ensures Play(moments, t).written <= Play(moments, t).w.sent
  {
    PlayKeeps(moments, t);
  }

  /** A loop that ended on the chunk marked last has written the whole object. */
  lemma EndingOnTheLastChunkIsComplete(moments: seq<Moment>, t: nat)
    requires t <= |moments|
    ensures var s := Play(moments, t); s.byLast ==> s.w.lastSent && s.w.queue == [] && s.written == s.w.sent
  {
    PlayKeeps(moments, t);
  }

  /** What a successful call has not written is the data still on the queue, which is empty exactly when the last chunk was taken. */
  lemma MissingDataIsQueued(moments: seq<Moment>, t: nat)
    requires t <= |moments|
    requires Succeeds(Play(moments, t))
    ensures var s := Play(moments, t); s.written + QueuedBytes(s.w.queue) == s.w.sent
    ensures var s := Play(moments, t); s.byLast <==> s.w.queue == []
  {
    PlayKeeps(moments, t);
  }

  lemma StoppedStep(s: State, m: Moment)
    requires Invariant(s) && s.pc == Stopped && Complete(s.w)
    ensures var s' := Step(s, m);
            && s'.pc == Stopped && Complete(s'.w) && s'.failed == s.failed
            && s'.written == s.written && s'.w.sent == s.w.sent
  {
    AdvanceKeepsFlow(s.w, m.acts, s.taken, s.byLast);
  }

  /** Once the loop has stopped and the worker has pushed all it will, nothing changes any more. */
  lemma {:induction false} StoppedStays(moments: seq<Moment>, t: nat, u: nat)
    requires t <= u <= |moments|
    requires Play(moments, t).pc == Stopped && Complete(Play(moments, t).w)
    ensures var s, s' := Play(moments, t), Play(moments, u);
            && s'.pc == Stopped && Complete(s'.w) && s'.failed == s.failed
            && s'.written == s.written && s'.w.sent == s.w.sent
  {
    hide Step, Complete, Invariant;
    if t < u {
      StoppedStays(moments, t, u - 1);
      PlayKeeps(moments, u - 1);
      StoppedStep(Play(moments, u - 1), moments[u-1]);
    }
  }

  lemma {:induction false} FailedStays(moments: seq<Moment>, t: nat, u: nat)
    requires t <= u <= |moments| && Play(moments, t).pc == Stopped
    ensures Play(moments, u).pc == Stopped && Play(moments, u).failed == Play(moments, t).failed
  {
    if t < u {
      FailedStays(moments, t, u - 1);
    }
  }

  /** The look at the flags that stops the loop without an error finds what was written at the last look at the queue. */
  lemma LastLook(moments: seq<Moment>, t: nat)
    requires t < |moments| && Play(moments, t).pc == CheckEnd
    requires Play(moments, t + 1).pc == Stopped && !Play(moments, t + 1).failed
    ensures var s, s' := Play(moments, t), Play(moments, t + 1);
            && Complete(s'.w) && s'.written == s.written == s.w.sent
            && (s.byLast ==> s'.w.sent == s.w.sent)
  {
    PlayKeeps(moments, t);
    PlayKeeps(moments, t + 1);
    var s := Play(moments, t);
    AdvanceKeepsFlow(s.w, moments[t].acts, s.taken, s.byLast);
    assert s.taken + QueuedBytes([]) == s.taken;
  }

  /** Every call that succeeds had such a look. */
  lemma {:induction false} SuccessHasALastLook(moments: seq<Moment>, u: nat) returns (t: nat)
    requires u <= |moments| && Play(moments, u).pc == Stopped && !Play(moments, u).failed
    ensures t < u && Play(moments, t).pc == CheckEnd && Play(moments, t + 1).pc == Stopped
  {
    if Play(moments, u - 1).pc == Stopped {
      t := SuccessHasALastLook(moments, u - 1);
    } else {
      t := u - 1;
    }
  }

  /**
    When is a reported success the whole object?  `t` is the last time the caller is
    done with the queue, either with the last chunk or with a test that found it
    empty, and `t + 1` is its look at the flags that stops the loop.  The object is
    complete exactly when it was the last chunk, or the worker pushed no data between
    the two.
  */
  lemma SuccessIsCompleteIff(moments: seq<Moment>, t: nat, u: nat)
    requires t < u <= |moments| && Play(moments, t).pc == CheckEnd && Play(moments, t + 1).pc == Stopped
    requires Succeeds(Play(moments, u))
    ensures Play(moments, u).written == Play(moments, u).w.sent
            <==> Play(moments, t).byLast || Play(moments, t).w.sent == Play(moments, t + 1).w.sent
  {
    hide Play, Step, Complete;
    FailedStays(moments, t + 1, u);
    LastLook(moments, t);
    StoppedStays(moments, t + 1, u);
  }

  function Quiet(acts: seq<WorkerAct>): Moment {
    Moment(acts, false, false, false, false, 0)
  }

  function LossyMoments(data: seq<byte>): seq<Moment> {
    [Quiet([]), Quiet([]), Quiet([PushData(data), PushLast, Return(true), SetDone]), Quiet([End])]
  }

  /**
    The whole download may come between the last test for an empty queue and the
    test of the worker's flag: the loop ends, and success is reported with nothing
    written.
  */
  lemma SuccessWithMissingData(data: seq<byte>)
    requires data != []
    ensures var s := Play(LossyMoments(data), 4); Succeeds(s) && s.w.sent == data && s.written == []
  {
    assert Play(LossyMoments(data), 1) == INIT.(pc := TestEmpty);
    assert Play(LossyMoments(data), 2) == INIT.(pc := CheckEnd);
    LossyActs(data);
    assert Play(LossyMoments(data), 3) == INIT.(pc := Stopped, w := LossyWorker(data));
    assert [End][1..] == [];
    assert Advance(LossyWorker(data), [End]) == Advance(LossyWorker(data).(active := false), []);
    assert Play(LossyMoments(data), 4) == INIT.(pc := Stopped, w := LossyWorker(data).(active := false));
  }

  function LossyWorker(data: seq<byte>): Worker {
    Worker([Chunk(data, false), Chunk([], true)], data, true, true, false, true, true)
  }

  lemma LossyActs(data: seq<byte>)
    ensures Advance(INIT.w, [PushData(data), PushLast, Return(true), SetDone]) == LossyWorker(data)
  {
    var w := LossyWorker(data);
    var w3 := w.(done := false);
    var w2 := w3.(returned := false);
    var w1 := w2.(queue := [Chunk(data, false)], lastSent := false);
    assert [] + data == data;
    assert [SetDone][1..] == [] && [Return(true), SetDone][1..] == [SetDone];
    assert [PushLast, Return(true), SetDone][1..] == [Return(true), SetDone];
    assert [PushData(data), PushLast, Return(true), SetDone][1..] == [PushLast, Return(true), SetDone];
    assert Advance(w, []) == w;
    assert Advance(w3, [SetDone]) == w;
    assert Advance(w2, [Return(true), SetDone]) == w;
    assert Advance(w1, [PushLast, Return(true), SetDone]) == w;
  }

  /** The next moment of a play, by where the caller stands. */
  lemma PlayMore(moments: seq<Moment>, t: nat)
    requires t < |moments|
    ensures var s, s', m := WorkerMoves(Play(moments, t), moments[t]), Play(moments, t + 1), moments[t];
            && (s.pc == Wait ==> s' == CheckAbort(s, m))
            && (s.pc == TestEmpty ==> s' == s.(pc := if s.w.queue == [] then CheckEnd else TakeChunk))
            && (s.pc == TakeChunk ==> s.w.queue != [] && s' == Take(s, m))
            && (s.pc == CheckEnd ==> s' == CheckFlags(s, m))
            && (s.pc == Stopped ==> s' == s)
  {
    PlayKeeps(moments, t);
    var s := Play(moments, t);
    AdvanceKeepsFlow(s.w, moments[t].acts, s.taken, s.byLast);
  }

  // ------------------------------------------------------ what makes it fail

  /** What the caller meets at moment `t` makes the call fail: an abort, a failed wait, a failed write or its thread told to exit. */
  predicate FaultAt(moments: seq<Moment>, t: nat)
    requires t < |moments|
  {
    var s, m := Play(moments, t), moments[t];
    || (s.pc == Wait && (m.aborted || m.waitFailed))
    || (s.pc == TakeChunk && s.w.queue != [] && s.w.queue[0].data != [] && m.writeFails)
    || (s.pc == CheckEnd && m.exitFlag)
  }

  lemma StepFails(moments: seq<Moment>, t: nat)
    requires t < |moments|
    ensures Play(moments, t + 1).failed <==> Play(moments, t).failed || FaultAt(moments, t)
  {
    PlayMore(moments, t);
    PlayKeeps(moments, t);
    var s := Play(moments, t);
    AdvanceKeepsFlow(s.w, moments[t].acts, s.taken, s.byLast);
  }

  /** The caller has an error exactly when one of these was met. */
  lemma {:induction false} FailedIff(moments: seq<Moment>, u: nat)
    requires u <= |moments|
    ensures Play(moments, u).failed <==> exists t :: 0 <= t < u && FaultAt(moments, t)
  {
    if u == 0 {
      assert !Play(moments, 0).failed;
    } else {
      FailedIff(moments, u - 1);
      StepFails(moments, u - 1);
      hide Play, Step, FaultAt;
    }
  }

  /**
    Success is reported exactly when the loop is over, none of these was met, and the worker
    has ended without an error.
  */
  lemma SucceedsIff(moments: seq<Moment>, u: nat)
    requires u <= |moments|
    ensures Succeeds(Play(moments, u)) <==>
              var s := Play(moments, u);
              s.pc == Stopped && !s.w.active && !s.w.error && !exists t :: 0 <= t < u && FaultAt(moments, t)
  {
    FailedIff(moments, u);
  }

  /** Each fault ends the loop at once, or at the next look at the flags if it was a write. */
  lemma FaultEndsLoop(moments: seq<Moment>, t: nat)
    requires t < |moments| && FaultAt(moments, t)
    ensures var s := Play(moments, t + 1); s.pc == if Play(moments, t).pc == TakeChunk then CheckEnd else Stopped
    ensures Play(moments, t).pc == TakeChunk && t + 1 < |moments| ==> Play(moments, t + 2).pc == Stopped
  {
    StepFails(moments, t);
    PlayMore(moments, t);
    PlayKeeps(moments, t);
    AdvanceKeepsFlow(Play(moments, t).w, moments[t].acts, Play(moments, t).taken, Play(moments, t).byLast);
    if Play(moments, t).pc == TakeChunk && t + 1 < |moments| {
      PlayMore(moments, t + 1);
    }
  }

  /** Without a fault the loop ends exactly at a look at the flags that finds the last chunk taken, the worker done, or ended with an error. */
  lemma LoopEndsIff(moments: seq<Moment>, t: nat)
    requires t < |moments| && !FaultAt(moments, t) && Play(moments, t).pc != Stopped
    ensures var s, w := Play(moments, t), Play(moments, t + 1).w;
            Play(moments, t + 1).pc == Stopped
            <==> s.pc == CheckEnd && (s.failed || s.byLast || w.done || (!w.active && w.error))
  {
    PlayMore(moments, t);
    PlayKeeps(moments, t);
    AdvanceKeepsFlow(Play(moments, t).w, moments[t].acts, Play(moments, t).taken, Play(moments, t).byLast);
  }

  /** Takes chunks and writes them until the queue is empty, the last chunk is out or a write fails. */
  method Drain(moments: seq<Moment>, s0: State, t0: nat) returns (s: State, t: nat)
    requires t0 <= |moments| && s0 == Play(moments, t0) && s0.pc == TestEmpty
    ensures t0 <= t <= |moments| && s == Play(moments, t) && (t < |moments| ==> s.pc == CheckEnd)
  {
    s, t := s0, t0;
    while t < |moments| && s.pc != CheckEnd
      invariant t0 <= t <= |moments| && s == Play(moments, t)
      invariant t < |moments| ==> s.pc == TestEmpty || s.pc == CheckEnd
      decreases |moments| - t
    {
      PlayMore(moments, t);
      s := WorkerMoves(s, moments[t]);
      s, t := s.(pc := if s.w.queue == [] then CheckEnd else TakeChunk), t + 1;
      if s.pc == TakeChunk && t < |moments| {
        PlayMore(moments, t);
        s := Take(WorkerMoves(s, moments[t]), moments[t]);
        t := t + 1;
      }
    }
  }

  /** Waits for the worker to end. */
  method Join(moments: seq<Moment>, s0: State, t0: nat) returns (s: State)
    requires t0 <= |moments| && s0 == Play(moments, t0) && (t0 < |moments| ==> s0.pc == Stopped)
    ensures s == Play(moments, |moments|)
  {
    s := s0;
    for t := t0 to |moments|
      invariant s == Play(moments, t) && (t < |moments| ==> s.pc == Stopped)
    {
      PlayMore(moments, t);
      s := WorkerMoves(s, moments[t]);
    }
  }

  /** The wait ends, and the caller looks for an abort. */
  method AfterWait(moments: seq<Moment>, s0: State, t: nat) returns (s: State)
    requires t < |moments| && s0 == Play(moments, t) && s0.pc == Wait
    ensures s == Play(moments, t + 1) && (s.pc == TestEmpty || s.pc == Stopped)
  {
    PlayMore(moments, t);
    s := CheckAbort(WorkerMoves(s0, moments[t]), moments[t]);
  }

  /** The queue has been drained, and the caller looks at the flags. */
  method AfterDrain(moments: seq<Moment>, s0: State, t: nat) returns (s: State)
    requires t < |moments| && s0 == Play(moments, t) && s0.pc == CheckEnd
    ensures s == Play(moments, t + 1) && (s.pc == Wait || s.pc == Stopped)
  {
    PlayMore(moments, t);
    s := CheckFlags(WorkerMoves(s0, moments[t]), moments[t]);
  }

  /** One turn of the outer loop: the wait, the drain and the look at the flags. */
  method Round(moments: seq<Moment>, s0: State, t0: nat) returns (s: State, t: nat)
    requires t0 < |moments| && s0 == Play(moments, t0) && s0.pc == Wait
    ensures t0 < t <= |moments| && s == Play(moments, t) && (t < |moments| ==> s.pc == Wait || s.pc == Stopped)
  {
    hide Play;
    s := AfterWait(moments, s0, t0);
    t := t0 + 1;
    if s.pc == Stopped {
      return;
    }
    s, t := Drain(moments, s, t);
    if t < |moments| {
      s := AfterDrain(moments, s, t);
      t := t + 1;
    }
  }

  /** The caller's loops, run over one interleaving; a run that outlasts the moments stops where they end. */
  method Read(moments: seq<Moment>) returns (s: State)
    ensures s == Play(moments, |moments|)
  {
    assert Play(moments, 0) == INIT;
    hide Play;
    s := INIT;
    var t: nat := 0;
    while s.pc != Stopped && t < |moments|
      invariant t <= |moments| && s == Play(moments, t)
      invariant t < |moments| ==> s.pc == Wait || s.pc == Stopped
      decreases |moments| - t
    {
      s, t := Round(moments, s, t);
    }
    s := Join(moments, s, t);
  }
}
