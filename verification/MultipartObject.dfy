/**
  The upload as the source writes it: nested loops over the part list and the list
  of pending messages, updating both in place.

  What the workers do in each of their turns and everything else the caller cannot
  foresee (how much a read returns, what the server answers, when the user aborts) is
  given by an `Environment`; workers have turns throughout the loops.  Each step is
  recorded, so that whatever the loops do is a run of `MultipartUpload` that conforms to
  the environment, and the theorems about such runs hold of the result.
*/
module MultipartObject {
  import opened Bytes
  import opened StreamData
  import opened MultipartUpload
  import opened UploadFaults
  import PartPlan

  datatype Outcome = Finished | More | Threw

  /** What the workers leave alone. */
  ghost predicate OnlyWorkersRan(before: State, after: State) {
    && after.pc == before.pc && after.pos == before.pos && after.calls == before.calls
    && |after.pending| == |before.pending| && |after.parts| == |before.parts|
    && (forall k :: 0 <= k < |before.pending| ==> after.pending[k].part == before.pending[k].part)
    && (forall j :: 0 <= j < |before.parts| ==> SameProgress(before.parts[j], after.parts[j]))
  }

  predicate SameProgress(a: PartEntry, b: PartEntry) {
    a.complete == b.complete && a.inProcess == b.inProcess && a.cursor == b.cursor && a.retryNum == b.retryNum
  }

  lemma RunIsWellFormed(c: Config, states: seq<State>, actions: seq<Action>)
    requires c.Valid() && IsRun(c, states, actions)
    ensures WellFormed(c, states[|actions|])
  {
    RunKeeps(c, states, actions, |actions|);
  }

  /** While a part is being fed, what is left of it lies ahead in the file. */
  lemma FeedIsInsideFile(c: Config, states: seq<State>, actions: seq<Action>)
    requires c.Valid() && IsRun(c, states, actions) && states[|actions|].pc.Fill?
    ensures states[|actions|].pos + states[|actions|].pc.remaining <= |c.file|
  {
    RunKeeps(c, states, actions, |actions|);
  }

  /** While a part is topped up, its cursor is where the file is read. */
  lemma TopUpIsInsideFile(c: Config, states: seq<State>, actions: seq<Action>)
    requires c.Valid() && IsRun(c, states, actions) && states[|actions|].pc.TopUp?
    ensures var s := states[|actions|];
            s.pc.k < |s.pending| && s.pending[s.pc.k].part < |s.parts| == |c.plan|
            && var j := s.pending[s.pc.k].part;
               s.parts[j].cursor <= c.plan[j].size && s.pos + (c.plan[j].size - s.parts[j].cursor) <= |c.file|
  {
    RunKeeps(c, states, actions, |actions|);
    var s := states[|actions|];
    assert AttemptOk(c, s.parts[s.pending[s.pc.k].part], s.pending[s.pc.k]);
  }

  /** A run that conforms to the environment and has led to this state, with these questions and failures on the way. */
  ghost predicate History(c: Config, env: Environment, states: seq<State>, actions: seq<Action>, s: State, n: Asked, failures: nat) {
    && IsRun(c, states, actions) && Conforms(c, env, states, actions)
    && states[|actions|] == s && n == AskedBy(actions) && failures == WorkerFails(actions)
  }

  lemma HistoryIsRun(c: Config, env: Environment, states: seq<State>, actions: seq<Action>, s: State, n: Asked, failures: nat)
    requires History(c, env, states, actions, s, n, failures)
    ensures IsRun(c, states, actions) && states[|actions|] == s
  {
  }

  /** One more step of a run. */
  lemma HistoryGrows(c: Config, env: Environment, states: seq<State>, actions: seq<Action>, s: State, n: Asked, failures: nat, a: Action)
    requires c.Valid() && History(c, env, states, actions, s, n, failures) && Enabled(c, s, a) && Answers(c, env, s, a, n)
    ensures History(c, env, states + [Next(c, s, a)], actions + [a], Next(c, s, a), Ask(n, a), failures + (if a.WorkerFail? then 1 else 0))
    ensures WellFormed(c, Next(c, s, a))
  {
    hide Enabled, Next, Answers, WellFormed;
    var states', actions' := states + [Next(c, s, a)], actions + [a];
    assert actions'[..|actions|] == actions;
    assert IsRun(c, states', actions');
    RunIsWellFormed(c, states', actions');
    ConformsOn(c, env, states, actions, a, Next(c, s, a));
  }

  lemma ConformsOn(c: Config, env: Environment, states: seq<State>, actions: seq<Action>, a: Action, s: State)
    requires Conforms(c, env, states, actions)
    requires Enabled(c, states[|actions|], a) && Answers(c, env, states[|actions|], a, AskedBy(actions))
    ensures Conforms(c, env, states + [s], actions + [a])
  {
    hide Enabled, Answers, AskedBy;
    var states', actions' := states + [s], actions + [a];
    assert actions'[..|actions|] == actions;
    forall i | 0 <= i < |actions'|
      ensures Enabled(c, states'[i], actions'[i]) && Answers(c, env, states'[i], actions'[i], AskedBy(actions'[..i]))
    {
      if i < |actions| {
        assert actions'[..i] == actions[..i];
      }
    }
  }

  lemma WorkersStayLocal(c: Config, s: State, act: WorkerAct)
    requires Enabled(c, s, AsAction(act))
    ensures OnlyWorkersRan(s, Next(c, s, AsAction(act)))
  {
  }

  lemma WorkedOneMore(c: Config, s: State, acts: seq<WorkerAct>, i: nat)
    requires i < |acts|
    ensures var s', a := Worked(c, s, acts[..i]), AsAction(acts[i]);
            Worked(c, s, acts[..i+1]) == if Enabled(c, s', a) then Next(c, s', a) else s'
    ensures FailsIn(acts[..i+1]) == FailsIn(acts[..i]) + (if acts[i].End? && acts[i].failed then 1 else 0)
  {
    hide Enabled, Next;
    assert acts[..i+1][..i] == acts[..i];
  }

  lemma TurnBegins(c: Config, env: Environment, s: State, turn: nat)
    ensures Worked(c, s, env.work(turn)[..0]) == s && FailsIn(env.work(turn)[..0]) == 0
    ensures Fails(env, turn + 1) == Fails(env, turn) + FailsIn(env.work(turn))
  {
    hide Enabled, Next;
  }

  lemma NobodyRan(s: State)
    ensures OnlyWorkersRan(s, s)
  {
  }

  lemma RanOn(a: State, b: State, c: State)
    requires OnlyWorkersRan(a, b) && OnlyWorkersRan(b, c)
    ensures OnlyWorkersRan(a, c)
  {
  }

  /** What is fed to a part before it is sent: all of it, or as much as its queue takes. */
  lemma FeedIsDone(c: Config, states: seq<State>, actions: seq<Action>)
    requires c.Valid() && IsRun(c, states, actions)
    requires var s := states[|actions|]; s.pc.Fill? && !FillMore(c, s.pc)
    ensures var s := states[|actions|];
            s.pc.i < |s.parts| == |c.plan|
            && (s.parts[s.pc.i].cursor == c.plan[s.pc.i].size || |s.parts[s.pc.i].queue| == c.maxQueue)
  {
    RunKeeps(c, states, actions, |actions|);
  }

  lemma {:induction false} FailsInPrefix(acts: seq<WorkerAct>, i: nat)
    requires i <= |acts|
    ensures FailsIn(acts[..i]) <= FailsIn(acts)
    decreases |acts|
  {
    if i == |acts| {
      assert acts[..i] == acts;
    } else {
      FailsInPrefix(acts[..|acts|-1], i);
      assert acts[..|acts|-1][..i] == acts[..i];
    }
  }

  class Uploader {
    const c: Config
    const env: Environment
    var parts: seq<PartEntry>
    var pending: seq<Message>
    var pos: nat
    var calls: seq<Call>
    var waits: nat   // how often the wait for events has ended
    var turns: nat   // how often the workers have had a turn
    var asked: Asked // the questions put to the environment
    ghost var failures: nat
    ghost var pc: Pc
    ghost var states: seq<State>
    ghost var actions: seq<Action>

    ghost function Snapshot(): State
      reads this
    {
      State(parts, pending, pos, calls, pc)
    }

    /** The object is where the recorded run has led. */
    ghost predicate Valid()
      reads this
    {
      && c.Valid() && c.bufSize >= 1
      && History(c, env, states, actions, Snapshot(), asked, failures)
      && WellFormed(c, Snapshot())
      && failures <= Fails(env, turns)
    }

    constructor (config: Config, environment: Environment)
      requires config.Valid() && config.bufSize >= 1
      ensures Valid() && c == config && env == environment && pc == Start && waits == turns == 0
    {
      c, env, waits, turns, asked := config, environment, 0, 0, NOTHING;
      parts, pending, pos, calls, pc := seq(|config.plan|, _ => NEW_PART), [], 0, [], Start;
      states, actions, failures := [Init(config)], [], 0;
      new;
      assert AskedBy(actions) == NOTHING && WorkerFails(actions) == 0 && Fails(env, turns) == 0;
      assert WellFormed(c, Snapshot()) && Conforms(c, env, states, actions);
    }

    ghost method Record(before: State, n: Asked, a: Action)
      requires c.Valid() && c.bufSize >= 1 && History(c, env, states, actions, before, n, failures)
      requires Enabled(c, before, a) && Answers(c, env, before, a, n)
      requires Snapshot() == Next(c, before, a) && asked == Ask(n, a)
      requires failures + (if a.WorkerFail? then 1 else 0) <= Fails(env, turns)
      modifies `states, `actions, `failures
      ensures Valid() && failures == old(failures) + (if a.WorkerFail? then 1 else 0)
    {
      hide History, Next, Enabled, Answers;
      HistoryGrows(c, env, states, actions, before, n, failures, a);
      states, actions, failures := states + [Snapshot()], actions + [a], failures + (if a.WorkerFail? then 1 else 0);
    }

    /** A worker takes the next chunk of its part. */
    method WorkerPops(k: nat)
      requires Valid() && Enabled(c, Snapshot(), WorkerPop(k))
      modifies `parts, `pending, `states, `actions, `failures
      ensures Valid() && Snapshot() == Next(c, old(Snapshot()), WorkerPop(k)) && failures == old(failures)
    {
      hide History;
      ghost var before, n0 := Snapshot(), asked;
      var m, p := pending[k], parts[pending[k].part];
      parts := parts[m.part := p.(queue := p.queue[1..])];
      pending := pending[k := m.(consumed := m.consumed + p.queue[0].data, sawLast := m.sawLast || p.queue[0].last)];
      Record(before, n0, WorkerPop(k));
    }

    /** A worker reports how its attempt ended: well only after the last chunk. */
    method WorkerEnds(k: nat, failed: bool)
      requires Valid() && Enabled(c, Snapshot(), AsAction(End(k, failed)))
      requires failed ==> failures < Fails(env, turns)
      modifies `parts, `pending, `states, `actions, `failures
      ensures Valid() && Snapshot() == Next(c, old(Snapshot()), AsAction(End(k, failed)))
      ensures failures == old(failures) + (if failed then 1 else 0)
    {
      hide History;
      ghost var before, n0 := Snapshot(), asked;
      var m := pending[k];
      if !failed {
        parts := parts[m.part := parts[m.part].(stored := m.consumed)];
      }
      pending := pending[k := m.(done := true, error := failed)];
      Record(before, n0, AsAction(End(k, failed)));
    }

    /** A worker does what its turn says, if it can. */
    method WorkerActs(act: WorkerAct)
      requires Valid() && !pc.Returned?
      requires act.End? && act.failed ==> failures < Fails(env, turns)
      modifies `parts, `pending, `states, `actions, `failures
      ensures Valid()
      ensures Snapshot() == if Enabled(c, old(Snapshot()), AsAction(act)) then Next(c, old(Snapshot()), AsAction(act)) else old(Snapshot())
      ensures OnlyWorkersRan(old(Snapshot()), Snapshot())
      ensures failures <= old(failures) + (if act.End? && act.failed then 1 else 0)
    {
      hide History, Next, OnlyWorkersRan;
      NobodyRan(Snapshot());
      if Enabled(c, Snapshot(), AsAction(act)) {
        WorkersStayLocal(c, Snapshot(), act);
      }
      if act.k < |pending| && pending[act.k].sent && !pending[act.k].done {
        match act
        case Pop(k) =>
          if parts[pending[k].part].queue != [] {
            WorkerPops(k);
          }
        case End(k, failed) =>
          if failed || pending[k].sawLast {
            WorkerEnds(k, failed);
          }
      }
    }

    /** The workers' next turn: any number of steps, in any order. */
    method WorkersRun()
      requires Valid() && !pc.Returned?
      modifies `parts, `pending, `states, `actions, `failures, `turns
      ensures Valid() && turns == old(turns) + 1
      ensures Snapshot() == Worked(c, old(Snapshot()), env.work(old(turns)))
      ensures OnlyWorkersRan(old(Snapshot()), Snapshot())
    {
      hide History, Enabled, Next, OnlyWorkersRan, Worked, FailsIn, Fails;
      ghost var before := Snapshot();
      NobodyRan(before);
      var acts := env.work(turns);
      TurnBegins(c, env, before, turns);
      turns := turns + 1;
      for i := 0 to |acts|
        invariant Valid() && Snapshot() == Worked(c, before, acts[..i]) && OnlyWorkersRan(before, Snapshot())
        invariant turns == old(turns) + 1 && failures <= Fails(env, old(turns)) + FailsIn(acts[..i])
      {
        WorkedOneMore(c, before, acts, i);
        FailsInPrefix(acts, i + 1);
        ghost var sofar := Snapshot();
        WorkerActs(acts[i]);
        RanOn(before, sofar, Snapshot());
      }
      assert acts[..|acts|] == acts;
    }

    /** Leaves the loops on a fault: the upload is aborted. */
    method Stop(a: Action)
      requires Valid() && (a.AbortScan? || a.AbortWait? || a.ReadFails?)
      requires Enabled(c, Snapshot(), a) && Answers(c, env, Snapshot(), a, asked)
      modifies `calls, `pc, `states, `actions, `failures, `asked
      ensures Valid() && pc == Returned(false) && asked == Ask(old(asked), a)
    {
      hide History;
      ghost var before, n0 := Snapshot(), asked;
      asked := Ask(asked, a);
      calls := calls + [Aborted];
      pc := Returned(false);
      Record(before, n0, a);
    }

    /** A step that only moves on in the loops. */
    method Advance(a: Action)
      requires Valid() && Enabled(c, Snapshot(), a) && Answers(c, env, Snapshot(), a, asked)
      requires a.Skip? || a.Enough? || a.ScanEnd? || a.Wake? || a.CloseTopUp? || a.ReapEnd?
      modifies `pc, `states, `actions, `failures, `asked
      ensures Valid() && Snapshot() == Next(c, old(Snapshot()), a) && asked == Ask(old(asked), a)
    {
      hide History;
      ghost var before, n0 := Snapshot(), asked;
      asked := Ask(asked, a);
      pc := Next(c, before, a).pc;
      Record(before, n0, a);
    }

    /** A new message for a part, and the read position at its start. */
    method BeginPart(i: nat, queued: nat) returns (sought: bool)
      requires Valid() && AtFreshPart(c, Snapshot()) && pc.i == i && Unfinished(pending) <= queued < c.Room()
      requires queued == QueueLength(env, asked.looks, pending) && !env.aborted(asked.aborts)
      modifies `parts, `pending, `pos, `calls, `pc, `states, `actions, `failures, `asked
      ensures Valid() && sought == !env.seekFails(old(asked).seeks)
      ensures pc == if sought then Fill(i, c.plan[i].size, 0) else Returned(false)
      ensures asked == Ask(old(asked), StartPart(queued, sought))
    {
      hide History;
      ghost var before, n0 := Snapshot(), asked;
      sought := !env.seekFails(asked.seeks);
      assert Enabled(c, before, StartPart(queued, sought)) && Answers(c, env, before, StartPart(queued, sought), asked);
      StartPartResult(c, before, queued, sought);
      hide Enabled, Answers, Unfinished, Next, WellFormed, AtFreshPart, QueueLength;
      pending := pending + [Message(i, false, false, false, [], false)];
      parts := parts[i := parts[i].(inProcess := true, queue := [], hashed := [], attempts := parts[i].attempts + 1)];
      pos := c.plan[i].base;
      if !sought {
        calls := calls + [Aborted];
      }
      pc := if sought then Fill(i, c.plan[i].size, 0) else Returned(false);
      asked := Ask(asked, StartPart(queued, sought));
      Record(before, n0, StartPart(queued, sought));
    }

    /** One read of the feed loop. */
    method ReadForPart(i: nat, n: nat, remaining: nat, records: nat)
      requires Valid() && pc == Fill(i, remaining, records) && FillMore(c, pc)
      requires !env.readFails(asked.readings) && n == ReadLength(c, env, asked.readings, remaining)
      modifies `parts, `pos, `pc, `states, `actions, `failures, `asked
      ensures Valid() && pc == Fill(i, remaining - n, if records < c.maxQueue then records + 1 else records)
      ensures asked == old(asked).(readings := old(asked).readings + 1)
    {
      hide History, IsRun;
      HistoryIsRun(c, env, states, actions, Snapshot(), asked, failures);
      FeedIsInsideFile(c, states, actions);
      ghost var before, n0 := Snapshot(), asked;
      var data := c.file[pos..pos + n];
      var p := parts[i];
      if c.checksum {
        p := p.(hashed := p.hashed + data);
      }
      if records < c.maxQueue {
        p := p.(queue := p.queue + [Chunk(data, remaining == n)], cursor := p.cursor + n);
      }
      parts := parts[i := p];
      pos := pos + n;
      pc := Fill(i, remaining - n, if records < c.maxQueue then records + 1 else records);
      asked := Ask(asked, FillRead(n));
      Record(before, n0, FillRead(n));
    }

    /** One round of the feed loop: a fault, or a read, while the workers go on with other parts. */
    method FeedOnce(i: nat, remaining: nat, records: nat) returns (ok: bool, n: nat)
      requires Valid() && pc == Fill(i, remaining, records) && FillMore(c, pc)
      modifies `parts, `pending, `pos, `calls, `pc, `states, `actions, `failures, `asked, `turns
      ensures turns >= old(turns)
      ensures Valid() && 1 <= n <= remaining
      ensures pc == if ok then Fill(i, remaining - n, if records < c.maxQueue then records + 1 else records) else Returned(false)
      ensures ok == !env.readFails(old(asked).readings) && asked == old(asked).(readings := old(asked).readings + 1)
    {
      hide History;
      WorkersRun();
      n := ReadLength(c, env, asked.readings, remaining);
      ok := !env.readFails(asked.readings);
      if ok {
        ReadForPart(i, n, remaining, records);
      } else {
        Stop(ReadFails);
      }
    }

    method SendToPool(i: nat)
      requires Valid() && pc.Fill? && pc.i == i && !FillMore(c, pc)
      modifies `pending, `pc, `states, `actions, `failures
      ensures Valid() && pc == Scan(i + 1, true) && i < |parts| == |c.plan|
      ensures parts[i].cursor == c.plan[i].size || |parts[i].queue| == c.maxQueue
    {
      hide History, IsRun;
      HistoryIsRun(c, env, states, actions, Snapshot(), asked, failures);
      FeedIsDone(c, states, actions);
      ghost var before, n0 := Snapshot(), asked;
      pending := pending[|pending|-1 := pending[|pending|-1].(sent := true)];
      pc := Scan(i + 1, true);
      Record(before, n0, SendPart);
    }

    /** Reads until the part is at its end, its queue is full and need not be hashed further, or a read fails. */
    method FeedLoop(i: nat) returns (ok: bool)
      requires Valid() && i < |c.plan| && pc == Fill(i, c.plan[i].size, 0) && c.plan[i].size > 0
      modifies `parts, `pending, `pos, `calls, `pc, `states, `actions, `failures, `asked, `turns
      ensures turns >= old(turns)
      ensures Valid() && (if ok then pc.Fill? && pc.i == i && !FillMore(c, pc) else pc == Returned(false))
      ensures asked.readings > old(asked).readings && ok == !env.readFails(asked.readings - 1)
      ensures !c.checksum ==> asked.readings <= old(asked).readings + c.maxQueue
    {
      hide History;
      var remaining: nat, records: nat := c.plan[i].size, 0;
      ghost var before := asked.readings;
      ok := true;
      while remaining > 0
        invariant Valid() && pc == Fill(i, remaining, records) && (remaining > 0 ==> FillMore(c, pc))
        invariant ok && before <= asked.readings && records <= c.maxQueue && turns >= old(turns)
        invariant asked.readings == before ==> remaining > 0
        invariant asked.readings > before ==> !env.readFails(asked.readings - 1)
        invariant !c.checksum ==> asked.readings == before + records
      {
        var n;
        ok, n := FeedOnce(i, remaining, records);
        if !ok {
          return;
        }
        records := if records < c.maxQueue then records + 1 else records;
        remaining := remaining - n;
        if !c.checksum && records >= c.maxQueue {
          break;
        }
      }
    }

    /**
      Reads a part from its start, and hands it to the pool: read to its end, or as far as
      its queue takes, with no more reads than that unless it is hashed.  It stops short
      only when the seek or the last read asked for failed.
    */
    method FeedPart(i: nat, queued: nat) returns (ok: bool)
      requires Valid() && AtFreshPart(c, Snapshot()) && pc.i == i && Unfinished(pending) <= queued < c.Room()
      requires queued == QueueLength(env, asked.looks, pending) && !env.aborted(asked.aborts)
      modifies `parts, `pending, `pos, `calls, `pc, `states, `actions, `failures, `asked, `turns
      ensures turns >= old(turns)
      ensures Valid() && pc == if ok then Scan(i + 1, true) else Returned(false)
      ensures ok <==> !env.seekFails(old(asked).seeks) && asked.readings > old(asked).readings && !env.readFails(asked.readings - 1)
      ensures ok ==> i < |parts| == |c.plan| && (parts[i].cursor == c.plan[i].size || |parts[i].queue| == c.maxQueue)
      ensures !c.checksum ==> asked.readings <= old(asked).readings + c.maxQueue
    {
      hide History;
      ok := BeginPart(i, queued);
      if ok {
        ok := FeedLoop(i);
        if ok {
          SendToPool(i);
        }
      }
    }

    /** A part not started yet: enough messages in the pool, an abort, or the part is fed and sent. */
    method StartFresh(i: nat) returns (outcome: Outcome)
      requires Valid() && AtFreshPart(c, Snapshot()) && pc.i == i
      modifies `parts, `pending, `pos, `calls, `pc, `states, `actions, `failures, `asked, `turns
      ensures turns >= old(turns)
      ensures Valid()
      ensures pc == match outcome case Finished => Scan(i + 1, true) case More => Wait case Threw => Returned(false)
      ensures outcome.More? <==> QueueLength(env, old(asked).looks, old(pending)) >= c.Room()
      ensures env.aborted(old(asked).aborts) ==> !outcome.Finished?
    {
      hide History;
      var queued := QueueLength(env, asked.looks, pending);
      if queued >= c.Room() {
        Advance(Enough(queued));
        return More;
      }
      if env.aborted(asked.aborts) {
        Stop(AbortScan(queued));
        return Threw;
      }
      var ok := FeedPart(i, queued);
      return if ok then Finished else Threw;
    }

    /** One entry of the part list: skipped if complete or in process, else started. */
    method VisitPart(i: nat) returns (outcome: Outcome, complete: bool)
      requires Valid() && pc.Scan? && pc.i == i < |parts|
      modifies `parts, `pending, `pos, `calls, `pc, `states, `actions, `failures, `asked, `turns
      ensures turns > old(turns)
      ensures Valid()
      ensures pc == match outcome case Finished => Scan(i + 1, old(pc).incomplete || !complete) case More => Wait case Threw => Returned(false)
    {
      hide History;
      WorkersRun();
      complete := parts[i].complete;
      if complete || parts[i].inProcess {
        Advance(Skip);
        outcome := Finished;
      } else {
        outcome := StartFresh(i);
      }
    }

    /** Walks the part list and starts parts until the pool has enough. */
    method ScanParts() returns (outcome: Outcome)
      requires Valid() && pc == Scan(0, false)
      modifies `parts, `pending, `pos, `calls, `pc, `states, `actions, `failures, `asked, `turns
      ensures turns >= old(turns)
      ensures Valid()
      ensures pc == match outcome case Finished => Finish case More => Wait case Threw => Returned(false)
    {
      hide History;
      var listEmpty := true;
      var i: nat := 0;
      while i < |parts|
        invariant i <= |parts| == |c.plan| && Valid() && pc == Scan(i, !listEmpty) && turns >= old(turns)
        decreases |c.plan| - i
      {
        var complete;
        outcome, complete := VisitPart(i);
        if !outcome.Finished? {
          return;
        }
        listEmpty := listEmpty && complete;
        i := i + 1;
      }
      Advance(ScanEnd);
      return if listEmpty then Finished else More;
    }

    /** Moves the read position to where the part was left. */
    method SeekTo(k: nat) returns (sought: bool)
      requires Valid() && pc.Reap? && pc.k == k < |pending| && !pending[k].done
      modifies `pos, `calls, `pc, `states, `actions, `failures, `asked
      ensures Valid() && sought == !env.seekFails(old(asked).seeks)
      ensures pc == if sought then TopUp(k, old(pc).deleted) else Returned(false)
      ensures asked == old(asked).(seeks := old(asked).seeks + 1)
    {
      hide History;
      ghost var before, n0 := Snapshot(), asked;
      sought := !env.seekFails(asked.seeks);
      if sought {
        var j := pending[k].part;
        pos := c.plan[j].base + parts[j].cursor;
        pc := TopUp(k, pc.deleted);
      } else {
        calls := calls + [Aborted];
        pc := Returned(false);
      }
      asked := Ask(asked, OpenTopUp(sought));
      Record(before, n0, OpenTopUp(sought));
    }

    /** Reads until the queue is full or the part is read, or a read fails. */
    method TopUpLoop(k: nat) returns (ok: bool)
      requires Valid() && pc.TopUp? && pc.k == k < |pending|
      modifies `parts, `pending, `pos, `calls, `pc, `states, `actions, `failures, `asked, `turns
      ensures turns >= old(turns)
      ensures Valid() && pc == if ok then old(pc) else Returned(false)
      ensures ok ==> |pending| == old(|pending|) && !TopUpMore(c, Snapshot())
      ensures asked.seeks == old(asked).seeks && asked.readings >= old(asked).readings
      ensures ok <==> (asked.readings > old(asked).readings ==> !env.readFails(asked.readings - 1))
    {
      hide History;
      var j := pending[k].part;
      ok := true;
      while |parts[j].queue| < c.maxQueue && parts[j].cursor < c.plan[j].size
        invariant Valid() && pc == old(pc) && k < |pending| == old(|pending|) && ok && turns >= old(turns)
        invariant pending[k].part == j < |parts| == |c.plan|
        invariant asked.seeks == old(asked).seeks && asked.readings >= old(asked).readings
        invariant asked.readings > old(asked).readings ==> !env.readFails(asked.readings - 1)
        decreases c.plan[j].size - parts[j].cursor
      {
        ok := TopUpOnce(k);
        if !ok {
          return;
        }
      }
    }

    /**
      Adds chunks to the queue of an attempt that is still going on, until the queue is full
      or the part is read.  It stops short only when the seek or the last read asked for failed.
    */
    method TopUpPart(k: nat) returns (ok: bool)
      requires Valid() && pc.Reap? && pc.k == k < |pending| && !pending[k].done
      modifies `parts, `pending, `pos, `calls, `pc, `states, `actions, `failures, `asked, `turns
      ensures turns >= old(turns)
      ensures Valid() && pc == if ok then Reap(k + 1, old(pc).deleted) else Returned(false)
      ensures ok <==> !env.seekFails(old(asked).seeks) && (asked.readings > old(asked).readings ==> !env.readFails(asked.readings - 1))
      ensures ok ==> |pending| == old(|pending|) && pending[k].part < |parts| == |c.plan|
      ensures ok ==> var j := pending[k].part; |parts[j].queue| >= c.maxQueue || parts[j].cursor >= c.plan[j].size
    {
      hide History;
      ok := SeekTo(k);
      if ok {
        ok := TopUpLoop(k);
        if ok {
          Advance(CloseTopUp);
        }
      }
    }

    /** One round of the loop: a fault, or a read, while the workers go on. */
    method TopUpOnce(k: nat) returns (ok: bool)
      requires Valid() && pc.TopUp? && pc.k == k && TopUpMore(c, Snapshot())
      modifies `parts, `pending, `pos, `calls, `pc, `states, `actions, `failures, `asked, `turns
      ensures turns >= old(turns)
      ensures Valid() && pc == if ok then old(pc) else Returned(false)
      ensures ok == !env.readFails(old(asked).readings) && asked == old(asked).(readings := old(asked).readings + 1)
      ensures ok ==> |pending| == old(|pending|) && pending[k].part == old(pending[k].part)
      ensures ok ==> var j := pending[k].part; parts[j].cursor > old(parts[j].cursor)
    {
      hide History;
      var j := pending[k].part;
      if env.readFails(asked.readings) {
        Stop(ReadFails);
        return false;
      }
      HistoryIsRun(c, env, states, actions, Snapshot(), asked, failures);
      TopUpIsInsideFile(c, states, actions);
      ReadMore(k, ReadLength(c, env, asked.readings, c.plan[j].size - parts[j].cursor));
      WorkersRun();
      return true;
    }

    method ReadMore(k: nat, n: nat)
      requires Valid() && pc.TopUp? && pc.k == k && TopUpMore(c, Snapshot())
      requires Enabled(c, Snapshot(), TopUpRead(n)) && Answers(c, env, Snapshot(), TopUpRead(n), asked)
      modifies `parts, `pos, `states, `actions, `failures, `asked
      ensures Valid() && |parts| == old(|parts|) && asked == old(asked).(readings := old(asked).readings + 1)
      ensures parts[pending[k].part].cursor == old(parts[pending[k].part].cursor) + n
    {
      hide History;
      ghost var before, n0 := Snapshot(), asked;
      var j := pending[k].part;
      var last := c.plan[j].size <= parts[j].cursor + n;
      var p := parts[j];
      parts := parts[j := p.(queue := p.queue + [Chunk(c.file[pos..pos + n], last)], cursor := p.cursor + n)];
      pos := pos + n;
      asked := Ask(asked, TopUpRead(n));
      Record(before, n0, TopUpRead(n));
    }

    /** Takes a message that is done off the list: its part is complete, or tried again while retries are left. */
    method ReapMessage(k: nat) returns (ok: bool)
      requires Valid() && pc.Reap? && pc.k == k < |pending| && pending[k].done
      modifies `parts, `pending, `calls, `pc, `states, `actions, `failures
      ensures Valid() && pc == if ok then Reap(k, true) else Returned(false)
      ensures ok ==> pending == old(pending)[..k] + old(pending)[k+1..] && |parts| == old(|parts|)
      ensures var m := old(pending)[k];
              var before := old(parts)[m.part];
              && (ok <==> !m.error || before.retryNum < c.maxRetries)
              && (ok && !m.error ==> parts[m.part] == before.(complete := true))
              && (ok && m.error ==> !parts[m.part].inProcess && !parts[m.part].complete && parts[m.part].retryNum == before.retryNum + 1
                                    && parts[m.part].queue == [] && parts[m.part].cursor == 0 && parts[m.part].hashed == [])
              && (ok ==> forall j :: 0 <= j < |parts| && j != m.part ==> parts[j] == old(parts)[j])
              && (!ok ==> calls == old(calls) + [Aborted])
    {
      hide History;
      ghost var before, n0 := Snapshot(), asked;
      var m := pending[k];
      var p := parts[m.part];
      if m.error {
        if p.retryNum >= c.maxRetries {
          calls := calls + [Aborted];
          pc := Returned(false);
          Record(before, n0, ReapDone);
          return false;
        }
        p := p.(inProcess := false, complete := false, retryNum := p.retryNum + 1, hashed := [], queue := [], cursor := 0);
      } else {
        p := p.(complete := true);
      }
      parts := parts[m.part := p];
      pending := pending[..k] + pending[k+1..];
      pc := Reap(k, true);
      Record(before, n0, ReapDone);
      return true;
    }

    /** One entry of the pending list: taken off if done, else topped up. */
    method VisitMessage(k: nat) returns (ok: bool, gone: bool)
      requires Valid() && pc.Reap? && pc.k == k < |pending|
      modifies `parts, `pending, `pos, `calls, `pc, `states, `actions, `failures, `asked, `turns
      ensures turns > old(turns)
      ensures Valid()
      ensures pc == if !ok then Returned(false) else if gone then Reap(k, true) else Reap(k + 1, old(pc).deleted)
      ensures ok ==> |pending| == if gone then old(|pending|) - 1 else old(|pending|)
    {
      hide History;
      WorkersRun();
      gone := pending[k].done;
      if gone {
        ok := ReapMessage(k);
      } else {
        ok := TopUpPart(k);
      }
    }

    /** Walks the list of pending messages once. */
    method ReapPending() returns (outcome: Outcome)
      requires Valid() && pc == Reap(0, false)
      modifies `parts, `pending, `pos, `calls, `pc, `states, `actions, `failures, `asked, `turns
      ensures turns >= old(turns)
      ensures Valid()
      ensures pc == match outcome case Finished => Scan(0, false) case More => Wait case Threw => Returned(false)
    {
      hide History;
      var deleted := false;
      var k: nat := 0;
      while k < |pending|
        invariant k <= |pending| && Valid() && pc == Reap(k, deleted) && turns >= old(turns)
        decreases |pending| - k
      {
        var ok, gone := VisitMessage(k);
        if !ok {
          return Threw;
        }
        if gone {
          deleted := true;
        } else {
          k := k + 1;
        }
      }
      Advance(ReapEnd);
      return if deleted then Finished else More;
    }

    method InitiateUpload() returns (ok: bool)
      requires Valid() && pc == Start
      modifies `calls, `pc, `states, `actions, `failures
      ensures Valid() && ok == env.initiates && pc == if ok then Scan(0, false) else Returned(false)
    {
      hide History;
      ghost var before, n0 := Snapshot(), asked;
      ok := env.initiates;
      calls := calls + [Initiated(ok)];
      pc := if ok then Scan(0, false) else Returned(false);
      Record(before, n0, Initiate(ok));
    }

    /** Asks the server to put the parts together; if it refuses, the upload is aborted. */
    method CompleteUpload() returns (ok: bool)
      requires Valid() && pc == Finish
      modifies `calls, `pc, `states, `actions, `failures
      ensures Valid() && ok == env.completes && pc == Returned(ok)
    {
      hide History;
      ghost var before, n0 := Snapshot(), asked;
      ok := env.completes;
      calls := calls + [Completed(ok)];
      if !ok {
        calls := calls + [Aborted];
      }
      pc := Returned(ok);
      Record(before, n0, Complete(ok));
    }

    /** The wait ends, and the abort flag is looked at. */
    method WakeUp() returns (woke: bool)
      requires Valid() && pc == Wait
      modifies `parts, `pending, `calls, `pc, `states, `actions, `failures, `asked, `turns
      ensures turns > old(turns)
      ensures Valid() && woke == !env.aborted(old(asked).aborts) && pc == if woke then Reap(0, false) else Returned(false)
      ensures asked == old(asked).(aborts := old(asked).aborts + 1)
    {
      hide History;
      WorkersRun();
      woke := !env.aborted(asked.aborts);
      if woke {
        Advance(Wake);
      } else {
        Stop(AbortWait);
      }
    }

    /** One wait, and one walk of the pending messages. */
    method WaitOnce() returns (outcome: Outcome)
      requires Valid() && pc == Wait
      modifies `parts, `pending, `pos, `calls, `pc, `states, `actions, `failures, `asked, `turns, `waits
      ensures turns > old(turns)
      ensures Valid() && waits == old(waits) + 1
      ensures pc == match outcome case Finished => Scan(0, false) case More => Wait case Threw => Returned(false)
      ensures env.aborted(old(asked).aborts) ==> outcome == Threw
    {
      hide History;
      waits := waits + 1;
      var woke := WakeUp();
      if woke {
        outcome := ReapPending();
      } else {
        outcome := Threw;
      }
    }

    /** Waits and reaps until a message has left the list; `rounds` is how often the wait may end. */
    method WaitForParts(rounds: nat) returns (left: nat, outcome: Outcome)
      requires Valid() && pc == Wait
      modifies this
      ensures Valid() && left <= rounds
      ensures pc == match outcome case Finished => Scan(0, false) case More => Wait case Threw => Returned(false)
      ensures outcome.Finished? ==> left < rounds
      ensures outcome.More? ==> left == 0
      ensures waits + left == old(waits) + rounds && turns - old(turns) >= waits - old(waits)
    {
      hide History;
      left := rounds;
      while left > 0
        invariant Valid() && pc == Wait && left <= rounds && waits + left == old(waits) + rounds
        invariant turns - old(turns) >= waits - old(waits)
      {
        left := left - 1;
        outcome := WaitOnce();
        if !outcome.More? {
          return;
        }
      }
      return left, More;
    }

    /** The whole upload of a planned file; not finished if the waits allowed were too few. */
    method Upload(rounds: nat) returns (finished: bool, ok: bool)
      requires Valid() && pc == Start
      modifies this
      ensures Valid() && (finished ==> pc == Returned(ok))
      ensures turns - old(turns) >= waits - old(waits)
      ensures waits <= old(waits) + rounds && (!finished ==> waits == old(waits) + rounds)
    {
      hide History;
      ok := InitiateUpload();
      if !ok {
        return true, false;
      }
      var left := rounds;
      while true
        invariant Valid() && pc == Scan(0, false) && waits + left == old(waits) + rounds
        invariant turns - old(turns) >= waits - old(waits)
        decreases left
      {
        var outcome := ScanParts();
        if outcome.Threw? {
          return true, false;
        }
        if outcome.Finished? {
          break;
        }
        left, outcome := WaitForParts(left);
        if outcome.Threw? {
          return true, false;
        }
        if outcome.More? {
          return false, false;
        }
      }
      ok := CompleteUpload();
      return true, ok;
    }
  }

  lemma SpentMeansFailures(u: Uploader)
    requires u.Valid() && OutOfRetries(u.c, u.parts, u.pending)
    ensures Fails(u.env, u.turns) > u.c.maxRetries
  {
    OutOfRetriesIff(u.c, u.states, u.actions, |u.actions|);
    var j: nat :| j < |u.c.plan| && FailedAttempts(u.states, u.actions, |u.actions|, j) > u.c.maxRetries;
    AttemptsAreFails(u.states, u.actions, |u.actions|, j);
    assert u.actions[..|u.actions|] == u.actions;
  }

  lemma AnswerIsRight(u: Uploader)
    requires u.Valid() && u.pc.Returned?
    ensures var good := NoFault(u.env, u.asked) && !OutOfRetries(u.c, u.parts, u.pending);
            && (u.pc.ok <==> u.env.initiates && u.env.completes && good)
            && (u.pc.ok ==> Assembled(u.parts) == u.c.file && u.calls == [Initiated(true), Completed(true)])
            && (!u.pc.ok ==> u.calls == if !u.env.initiates then [Initiated(false)]
                                        else if good then [Initiated(true), Completed(false), Aborted]
                                        else [Initiated(true), Aborted])
  {
    hide Enabled, Next, Answers;
    assert u.actions[..|u.actions|] == u.actions;
    ReturnsTrueIff(u.c, u.env, u.states, u.actions, |u.actions|);
    UploadIsFaithful(u.c, u.states, u.actions, |u.actions|);
  }

  /** What an upload returns, what the server then has and has been asked, and what was asked of the environment. */
  datatype Report = Report(finished: bool, ok: bool, stored: seq<byte>, calls: seq<Call>, waits: nat, turns: nat, asked: Asked, spent: bool)

  /**
    Plans the file and uploads it.  A finished upload returns true exactly when it is not
    declined, there are threads, the server accepts its start and its end, no answer given was
    a fault and no part is out of retries, which takes more failed attempts than a part is
    allowed retries.
  */
  method DoS3MultiPartUpload(file: seq<byte>, bufSize: nat, partSizeMb: nat, maxThreads: nat, checksum: bool,
                             maxQueueSize: nat, maxRetries: nat, env: Environment, rounds: nat)
    returns (r: Report)
    requires |file| < PartPlan.UINT64 && 1 <= partSizeMb < 0x1_0000_0000 && bufSize >= 1
    ensures r.finished ==>
              (r.ok <==> !PartPlan.Declined(|file|, partSizeMb) && maxThreads > 0
                         && env.initiates && env.completes && NoFault(env, r.asked) && !r.spent)
    ensures r.spent ==> Fails(env, r.turns) > maxRetries
    ensures r.finished && r.ok ==> r.stored == file && r.calls == [Initiated(true), Completed(true)]
    ensures r.finished && !r.ok ==>
              r.calls ==
                if PartPlan.Declined(|file|, partSizeMb) || maxThreads == 0 then []
                else if !env.initiates then [Initiated(false)]
                else if NoFault(env, r.asked) && !r.spent then [Initiated(true), Completed(false), Aborted]
                else [Initiated(true), Aborted]
    ensures PartPlan.Declined(|file|, partSizeMb) || maxThreads == 0 ==> r.finished
    ensures r.waits <= rounds && (!r.finished ==> r.waits == rounds) && r.turns >= r.waits
  {
    var plan := PartPlan.PlanParts(|file|, partSizeMb);
    if plan.NoUpload? || maxThreads == 0 {
      return Report(true, false, [], [], 0, 0, NOTHING, false);
    }
    PlannedUploadIsValid(file, partSizeMb, bufSize, checksum, maxQueueSize, maxRetries, maxThreads);
    var u := new Uploader(Config(file, plan.parts, bufSize, checksum, QueueLimit(maxQueueSize), maxRetries, maxThreads), env);
    var finished, ok := u.Upload(rounds);
    var spent := OutOfRetries(u.c, u.parts, u.pending);
    if spent {
      SpentMeansFailures(u);
    }
    if finished {
      AnswerIsRight(u);
    }
    return Report(finished, ok, Assembled(u.parts), u.calls, u.waits, u.turns, u.asked, spent);
  }
}
