/**
  The thread pool as the source writes it: an object whose regions update its
  queues and its list of threads in place.  Each method is one locked region and
  is proved to be the step of `PoolMachine` that the invariants there are about.
*/
module ThreadPool {
  import opened MessageQueue
  import opened PoolMachine
  import opened QueueScans
  import opened ThreadLimits

  /** Only the queues and the threads change, and every copy made is of a record erased. */
  ghost predicate OnlyMoves(s: Pool, s': Pool) {
    && s' == s.(queue := s'.queue, future := s'.future, nextId := s'.nextId, workers := s'.workers,
                copied := s'.copied, erased := s'.erased)
    && (s.copied == s.erased ==> s'.copied == s'.erased)
  }

  /** Part of a transfer is done: `started` threads later, the rest of it still comes to the same queues. */
  ghost predicate Moves(s: Pool, s': Pool, flush: bool, started: nat) {
    && OnlyMoves(s, s')
    && DistinctIds(s'.future) && StoppedIsIdle(s'.workers) && s'.workers == StartMany(s.workers, started)
    && NotDue(s'.future, s.now, flush) == NotDue(s.future, s.now, flush)
    && SendAll(s'.queue, s'.nextId, DueFromLast(s'.future, s.now, flush)) == SendAll(s.queue, s.nextId, DueFromLast(s.future, s.now, flush))
  }

  lemma MovesNothing(s: Pool, flush: bool)
    requires DistinctIds(s.future) && StoppedIsIdle(s.workers)
    ensures Moves(s, s, flush, 0)
  {
  }

  lemma MovesOn(a: Pool, b: Pool, c: Pool, flush: bool, m: nat, n: nat)
    requires Moves(a, b, flush, m) && Moves(b, c, flush, n)
    ensures Moves(a, c, flush, m + n)
  {
    StartManyMore(a.workers, m, n);
  }

  lemma MovesAll(s: Pool, s': Pool, flush: bool, started: nat)
    requires Moves(s, s', flush, started) && forall i :: 0 <= i < |s'.future| ==> !IsDue(s'.future[i], s.now, flush)
    ensures s'.future == NotDue(s.future, s.now, flush) && s'.workers == StartMany(s.workers, started)
    ensures s'.queue == SendAll(s.queue, s.nextId, DueFromLast(s.future, s.now, flush)) && OnlyMoves(s, s')
  {
    NoneDue(s'.future, s.now, flush);
    SendAllNone(s'.queue, s'.nextId);
  }

  /** Not in use, and idle since a known time ten seconds or more ago. */
  predicate IdleTooLong(x: Worker, idleSince: nat, now: nat) {
    !x.inUse && idleSince != 0 && idleSince + 10 * 1000 * TICKS_PER_MS <= now
  }

  class CThreadPool {
    const limits: Limits
    var msgQueue: seq<Entry>
    var futureQueue: seq<Entry>
    var workers: seq<Worker>
    var nextId: nat
    var now: nat
    var disabled: bool
    ghost var observed: Pool

    /** The object as a state of the machine; `observed` supplies only what the source does not store. */
    ghost function Snapshot(): Pool
      reads this
    {
      observed.(queue := msgQueue, future := futureQueue, workers := workers, nextId := nextId, now := now, disabled := disabled)
    }

    constructor (limits: Limits, now: nat)
      ensures Snapshot() == Init(now) && this.limits == limits
    {
      this.limits := limits;
      msgQueue, futureQueue, workers := [], [], [];
      nextId, this.now, disabled := 0, now, false;
      observed := Init(now);
    }

    /** Walks the queue from its end to the first entry that is not below the new one. */
    method InsertEntry(e: Entry)
      modifies `msgQueue
      ensures msgQueue == Insert(old(msgQueue), e)
    {
      var i: nat := |msgQueue|;
      while i > 0
        invariant i <= |msgQueue| && msgQueue == old(msgQueue)
        invariant forall j :: i <= j < |msgQueue| ==> msgQueue[j].priority < e.priority
      {
        if msgQueue[i-1].priority >= e.priority {
          msgQueue := msgQueue[..i] + [e] + msgQueue[i..];
          return;
        }
        i := i - 1;
      }
      assert [e] + msgQueue == msgQueue[..0] + [e] + msgQueue[0..];
      msgQueue := [e] + msgQueue;
    }

    /** The message joins the queue as it was sent: due at once, or after so many milliseconds. */
    method SendMessage(payload: nat, priority: nat, group: nat, delay: nat)
      modifies this
      ensures nextId == old(nextId) + 1 && |msgQueue| == old(|msgQueue|) + 1
      ensures var due := if delay == 0 then 0 else old(now) + delay * 10000;
              forall e :: e in msgQueue <==>
                (e in old(msgQueue) || e == Entry(id := old(nextId), payload := payload, priority := priority, group := group,
                                                  due := due, notBefore := due, processing := false))
      ensures Snapshot() == Next(old(Snapshot()), Send(payload, priority, group, delay))
    {
      var due := if delay == 0 then 0 else now + delay * TICKS_PER_MS;
      InsertMembers(msgQueue, Entry(nextId, payload, priority, group, due, due, false));
      InsertEntry(Entry(nextId, payload, priority, group, due, due, false));
      nextId := nextId + 1;
      observed := observed.(accepted := observed.accepted + multiset{payload});
    }

    /** The message waits in the future queue, as it was sent, for so many milliseconds. */
    method SendMessageDelayed(payload: nat, priority: nat, group: nat, delay: nat)
      modifies this
      ensures nextId == old(nextId) + 1
      ensures var due := old(now) + delay * 10000;
              futureQueue == old(futureQueue)
                + [Entry(id := old(nextId), payload := payload, priority := priority, group := group, due := due, notBefore := due, processing := false)]
      ensures Snapshot() == Next(old(Snapshot()), SendDelayed(payload, priority, group, delay))
    {
      var due := now + delay * TICKS_PER_MS;
      futureQueue := futureQueue + [Entry(nextId, payload, priority, group, due, due, false)];
      nextId := nextId + 1;
      observed := observed.(accepted := observed.accepted + multiset{payload});
    }

    method ScanGroups(group: nat) returns (r: bool)
      ensures r == IfInGroup(workers, group)
      ensures GroupOk(workers) ==> (r <==> GroupOk(workers + [Worker(true, false, true, group, Ready)]))
    {
      if GroupOk(workers) {
        GroupRule(workers, Worker(true, false, true, group, Ready));
      }
      hide GroupOk;
      for i := 0 to |workers|
        invariant forall j :: 0 <= j < i && workers[j].inUse && (group != DONT_CARE || workers[j].group != DONT_CARE) ==>
                    group < ALONE_BASE && workers[j].group < ALONE_BASE && workers[j].group == group
      {
        if workers[i].inUse {
          if group != DONT_CARE || workers[i].group != DONT_CARE {
            if group >= ALONE_BASE || workers[i].group >= ALONE_BASE {
              return false;
            }
            if workers[i].group != group {
              return false;
            }
          }
        }
      }
      return true;
    }

    /** The first entry nobody is processing. */
    method ScanWaiting() returns (k: nat)
      ensures k == FirstWaiting(msgQueue)
    {
      k := 0;
      while k < |msgQueue| && msgQueue[k].processing
        invariant k <= |msgQueue|
        invariant forall j :: 0 <= j < k ==> msgQueue[j].processing
      {
        k := k + 1;
      }
    }

    /**
      A worker past its loop guard looks for a message, under both locks.  It starts the first
      waiting one unless there is none, its time has not come, or running it would break the
      group rule.
    */
    method PickMessage(w: nat) returns (started: bool)
      requires HasJob(Snapshot(), w, Ready)
      modifies this
      ensures var q, k, ws := old(msgQueue), FirstWaiting(old(msgQueue)), old(workers);
              && (GroupOk(ws) && !ws[w].inUse ==>
                    (started <==> k < |q| && (q[k].due == 0 || q[k].due <= now)
                                  && GroupOk(ws[w := ws[w].(inUse := true, group := q[k].group)])))
              && (started ==> k < |q| && msgQueue == q[k := q[k].(processing := true)]
                              && workers == ws[w := ws[w].(inUse := true, group := q[k].group, job := Running(q[k].id))])
      ensures started == MayStart(old(Snapshot()))
      ensures Snapshot() == Next(old(Snapshot()), if started then Pick(w) else Refuse(w))
    {
      var k := ScanWaiting();
      if k < |msgQueue| && GroupOk(workers) && !workers[w].inUse {
        GroupRuleAt(workers, w, workers[w].(inUse := true, group := msgQueue[k].group));
      }
      hide FirstWaiting, IfInGroup, GroupOk;
      if k == |msgQueue| {
        workers := workers[w := workers[w].(job := Waiting)];
        return false;
      }
      var e := msgQueue[k];
      var allowed := ScanGroups(e.group);
      if !allowed || (e.due != 0 && now < e.due) {
        workers := workers[w := workers[w].(group := e.group, job := Waiting)];
        return false;
      }
      msgQueue := msgQueue[k := e.(processing := true)];
      workers := workers[w := workers[w].(inUse := true, group := e.group, job := Running(e.id))];
      return true;
    }

    /** Finds the entry by its address, for which its id stands. */
    method ScanFor(id: nat) returns (k: nat)
      requires Find(msgQueue, id) < |msgQueue|
      ensures k == Find(msgQueue, id)
    {
      k := 0;
      while msgQueue[k].id != id
        invariant k <= Find(msgQueue, id)
        decreases |msgQueue| - k
      {
        k := k + 1;
      }
    }

    /** DoProcess is over: the entry leaves the queue, or waits again at its place. */
    method ReturnMessage(w: nat, processed: bool)
      requires IsRunning(Snapshot(), w)
      modifies this
      ensures DistinctIds(old(msgQueue)) ==> GivesUp(old(msgQueue), old(workers)[w].job.id, processed, msgQueue)
      ensures Snapshot() == Next(old(Snapshot()), Return(w, processed))
    {
      var k := ScanFor(workers[w].job.id);
      if DistinctIds(msgQueue) {
        GivenUp(msgQueue, k, processed);
      }
      hide Find, DistinctIds, GivesUp;
      if processed {
        observed := observed.(finished := observed.finished + multiset{msgQueue[k].payload});
        msgQueue := msgQueue[..k] + msgQueue[k+1..];
      } else {
        msgQueue := msgQueue[k := msgQueue[k].(processing := false)];
      }
      workers := workers[w := workers[w].(job := Finishing)];
    }

    method SetIdle(w: nat)
      requires HasJob(Snapshot(), w, Finishing)
      modifies this
      ensures Snapshot() == Next(old(Snapshot()), Idle(w))
    {
      workers := workers[w := workers[w].(inUse := false, job := Waiting)];
    }

    /** One pass of a kill: erases the first match, if there is one. */
    method KillFirst(victims: set<nat>) returns (found: bool, ghost payload: nat)
      modifies `msgQueue
      ensures Survivors(msgQueue, victims) == Survivors(old(msgQueue), victims)
      ensures found ==> |msgQueue| < |old(msgQueue)|
                        && Payloads(Killed(old(msgQueue), victims)) == Payloads(Killed(msgQueue, victims)) + multiset{payload}
      ensures !found ==> msgQueue == old(msgQueue) == Survivors(msgQueue, victims) && Killed(msgQueue, victims) == []
    {
      var i := 0;
      payload := 0;
      while i < |msgQueue|
        invariant i <= |msgQueue| && msgQueue == old(msgQueue)
        invariant forall j :: 0 <= j < i ==> Spared(msgQueue[j], victims)
      {
        if !msgQueue[i].processing && msgQueue[i].payload in victims {
          RemoveVictim(msgQueue, i, victims);
          payload := msgQueue[i].payload;
          msgQueue := msgQueue[..i] + msgQueue[i+1..];
          return true, payload;
        }
        i := i + 1;
      }
      NoVictims(msgQueue, victims);
      found := false;
    }

    /** Erases one match and starts over, until a whole pass finds none. */
    method KillAll(victims: set<nat>) returns (found: bool, ghost gone: multiset<nat>)
      modifies `msgQueue
      ensures msgQueue == Survivors(old(msgQueue), victims)
      ensures gone == Payloads(Killed(old(msgQueue), victims))
      ensures found <==> gone != multiset{}
    {
      ghost var payload;
      var again: bool;
      gone := multiset{};
      again, payload := KillFirst(victims);
      found := again;
      while again
        invariant Survivors(msgQueue, victims) == Survivors(old(msgQueue), victims)
        invariant Payloads(Killed(old(msgQueue), victims))
                  == Payloads(Killed(msgQueue, victims)) + (if again then multiset{payload} else multiset{}) + gone
        invariant !again ==> msgQueue == Survivors(msgQueue, victims) && Killed(msgQueue, victims) == []
        invariant found <==> again || gone != multiset{}
        decreases |msgQueue|, again
      {
        gone := gone + multiset{payload};
        again, payload := KillFirst(victims);
      }
      assert PayloadSeq([]) == [];
    }

    method SearchMessageKill(victims: set<nat>) returns (found: bool)
      modifies this
      ensures Snapshot() == Next(old(Snapshot()), KillMessages(victims))
      ensures found <==> Payloads(Killed(old(msgQueue), victims)) != multiset{}
    {
      ghost var gone;
      found, gone := KillAll(victims);
      observed := observed.(killed := observed.killed + gone);
    }

    /** Sends on one delayed message, with no further delay, and starts the threads the queue now calls for. */
    method ForwardMessage(e: Entry) returns (ghost started: nat)
      requires StoppedIsIdle(workers) && limits.Valid()
      modifies this
      ensures msgQueue == Insert(old(msgQueue), Entry(old(nextId), e.payload, e.priority, e.group, 0, e.notBefore, false))
      ensures nextId == old(nextId) + 1
      ensures workers == StartMany(old(workers), started) && StoppedIsIdle(workers)
      ensures exists q: nat :: started == ThreadsAdded(old(workers), msgQueue, Ceiling(limits, q), LeastThreads(limits, msgQueue, futureQueue))
      ensures Snapshot() == old(Snapshot()).(queue := msgQueue, nextId := nextId, workers := workers,
                                             copied := old(observed.copied) + multiset{e.payload})
    {
      InsertEntry(Entry(nextId, e.payload, e.priority, e.group, 0, e.notBefore, false));
      nextId := nextId + 1;
      observed := observed.(copied := observed.copied + multiset{e.payload});
      var overflow: nat :| overflow >= 0;
      var ceiling := AddThreads(overflow);
      started := ThreadsAdded(old(workers), msgQueue, ceiling, LeastThreads(limits, msgQueue, futureQueue));
      StartManyIsIdle(old(workers), started, 0);
    }

    /** The search does not stop at a due record: it ends up holding the last one. */
    method FindDueMessage(flush: bool) returns (found: bool, last: nat)
      ensures found ==> last < |futureQueue| && IsDue(futureQueue[last], now, flush)
                        && forall j :: last < j < |futureQueue| ==> !IsDue(futureQueue[j], now, flush)
      ensures !found ==> forall j :: 0 <= j < |futureQueue| ==> !IsDue(futureQueue[j], now, flush)
    {
      found, last := false, 0;
      for i := 0 to |futureQueue|
        invariant found ==> last < i && IsDue(futureQueue[last], now, flush)
                            && forall j :: last < j < i ==> !IsDue(futureQueue[j], now, flush)
        invariant !found ==> forall j :: 0 <= j < i ==> !IsDue(futureQueue[j], now, flush)
      {
        if flush || now >= futureQueue[i].due {
          last, found := i, true;
        }
      }
    }

    /** Sends the last due message on and erases its record: the first step of the whole transfer. */
    method MoveMessage(flush: bool, last: nat) returns (ghost started: nat)
      requires DistinctIds(futureQueue) && StoppedIsIdle(workers) && limits.Valid()
      requires last < |futureQueue| && IsDue(futureQueue[last], now, flush)
      requires forall j :: last < j < |futureQueue| ==> !IsDue(futureQueue[j], now, flush)
      modifies this
      ensures futureQueue == Remove(old(futureQueue), last) && DistinctIds(futureQueue) && StoppedIsIdle(workers)
      ensures now == old(now) && Moves(old(Snapshot()), Snapshot(), flush, started)
    {
      hide StartMany, StoppedIsIdle, ThreadsAdded, LeastThreads, Ceiling, NotDue, DueFromLast, SendAll, DistinctIds;
      RemoveLastDue(futureQueue, now, flush, last);
      var e := futureQueue[last];
      SendAllFirst(msgQueue, nextId, e, DueFromLast(Remove(futureQueue, last), now, flush));
      started := ForwardMessage(e);
      EraseFuture(e.id, last);
    }

    /**
      Moves exactly the due messages, the last one first, and then stops; every
      copy it makes it erases, so nothing is lost or doubled.
    */
    method TransferFutureQueue(flush: bool) returns (ghost started: nat)
      requires DistinctIds(futureQueue) && StoppedIsIdle(workers) && limits.Valid()
      modifies this
      ensures workers == StartMany(old(workers), started)
      ensures futureQueue == NotDue(old(futureQueue), now, flush)
      ensures msgQueue == SendAll(old(msgQueue), old(nextId), DueFromLast(old(futureQueue), now, flush))
      ensures OnlyMoves(old(Snapshot()), Snapshot())
    {
      ghost var before := Snapshot();
      MovesNothing(before, flush);
      hide Moves, IsDue;
      var found: bool;
      var last: nat;
      found, last := FindDueMessage(flush);
      started := 0;
      while found
        invariant StoppedIsIdle(workers) && DistinctIds(futureQueue) && now == before.now && Moves(before, Snapshot(), flush, started)
        invariant found ==> last < |futureQueue| && IsDue(futureQueue[last], now, flush)
                            && forall j :: last < j < |futureQueue| ==> !IsDue(futureQueue[j], now, flush)
        invariant !found ==> forall i :: 0 <= i < |futureQueue| ==> !IsDue(futureQueue[i], now, flush)
        decreases |futureQueue|
      {
        ghost var sofar := Snapshot();
        ghost var more := MoveMessage(flush, last);
        MovesOn(before, sofar, Snapshot(), flush, started, more);
        started := started + more;
        found, last := FindDueMessage(flush);
      }
      MovesAll(before, Snapshot(), flush, started);
    }

    /** Finds the record by its id and erases it. */
    method EraseFuture(id: nat, ghost at: nat)
      requires DistinctIds(futureQueue) && at < |futureQueue| && futureQueue[at].id == id
      modifies this
      ensures futureQueue == Remove(old(futureQueue), at) && DistinctIds(futureQueue)
      ensures Snapshot() == old(Snapshot()).(future := futureQueue, erased := old(observed.erased) + multiset{old(futureQueue)[at].payload})
    {
      var k := 0;
      while futureQueue[k].id != id
        invariant k <= at
        decreases |futureQueue| - k
      {
        k := k + 1;
      }
      assert k == at;
      RemoveKeepsIds(futureQueue, k, IdBound(futureQueue));
      observed := observed.(erased := observed.erased + multiset{futureQueue[k].payload});
      futureQueue := futureQueue[..k] + futureQueue[k+1..];
    }

    method StartNewThread()
      modifies `workers
      ensures workers == StartWorker(old(workers))
      ensures (forall i :: 0 <= i < |old(workers)| ==> old(workers)[i].active) ==> |workers| == |old(workers)| + 1
      ensures forall i :: 0 <= i < |old(workers)| && !old(workers)[i].active && (forall j :: 0 <= j < i ==> old(workers)[j].active) ==>
                |workers| == |old(workers)| && workers[i].active
    {
      var k := 0;
      while k < |workers| && workers[k].active
        invariant k <= |workers| && forall j :: 0 <= j < k ==> workers[j].active
      {
        k := k + 1;
      }
      assert k == FirstInactive(workers);
      if k < |workers| {
        workers := workers[k := Worker(true, false, false, workers[k].group, Waiting)];
      } else {
        workers := workers + [Worker(true, false, false, DONT_CARE, Waiting)];
      }
    }

    method CountThreads() returns (n: nat)
      ensures n == LiveCount(workers) == |set w | 0 <= w < |workers| && workers[w].active && !workers[w].exitFlag|
    {
      LiveCountIsSize(workers);
      n := 0;
      for i := 0 to |workers|
        invariant n == LiveCount(workers[..i])
      {
        assert workers[..i+1][..i] == workers[..i];
        if workers[i].active && !workers[i].exitFlag {
          n := n + 1;
        }
      }
      assert workers[..|workers|] == workers;
    }

    /** Starts threads while fewer than `least` live. */
    method RaiseTo(least: nat) returns (n: nat)
      requires StoppedIsIdle(workers)
      modifies `workers
      ensures n == AtLeast(LiveCount(old(workers)), least)
      ensures workers == StartMany(old(workers), n - LiveCount(old(workers)))
    {
      ghost var started := 0;
      assert Grown(workers, workers, 0);
      hide Grown;
      n := CountThreads();
      ghost var live := n;
      while n < least
        invariant n == live + started <= AtLeast(live, least) && Grown(old(workers), workers, started)
        decreases least - n
      {
        GrowByOne(old(workers), workers, started);
        StartNewThread();
        n := CountThreads();
        started := started + 1;
        GrownCount(old(workers), workers, started);
      }
      GrownCount(old(workers), workers, started);
    }

    /** Starts threads up to the minimum, and one more if the queue would profit and the ceiling allows. */
    method AddThreads(overflow: nat) returns (ceiling: nat)
      requires StoppedIsIdle(workers) && limits.Valid()
      modifies `workers
      ensures ceiling == Ceiling(limits, (|msgQueue| + overflow) % UINT32)
      ensures workers == StartMany(old(workers), ThreadsAdded(old(workers), msgQueue, ceiling, LeastThreads(limits, msgQueue, futureQueue)))
    {
      hide Ceiling, LeastThreads, LiveCount, StartMany, StartWorker, ThreadsAdded, IfInGroup, HasRoom;
      ceiling := Ceiling(limits, (|msgQueue| + overflow) % UINT32);
      ghost var live := LiveCount(workers);
      var n := CountThreads();
      var least := LeastThreads(limits, msgQueue, futureQueue);
      if n < ceiling {
        ThreadsAddedBelow(workers, msgQueue, ceiling, least);
        n := RaiseTo(least);
        if HasRoom(ceiling, n) && |msgQueue| > n {
          StartManyIsIdle(old(workers), n - live, msgQueue[0].group);
          var allowed := ScanGroups(msgQueue[0].group);
          if allowed {
            StartManyStep(old(workers), n - live);
            StartNewThread();
          }
        }
      } else {
        ThreadsAddedNone(workers, msgQueue, ceiling, least);
      }
    }

    /**
      Housekeeping: a thread that has been idle for ten seconds, as its last idle time
      says, retires if nothing is delayed and more than the minimum live.
    */
    method RetireIdle(w: nat, idleSince: nat)
      requires w < |workers|
      modifies `workers
      ensures workers == if futureQueue == [] && old(LiveCount(workers)) > LeastThreads(limits, msgQueue, futureQueue)
                            && !old(workers)[w].inUse && idleSince != 0 && idleSince + 100000000 <= now
                         then old(workers)[w := old(workers)[w].(exitFlag := true)] else old(workers)
      ensures Snapshot() == old(Snapshot()) || Snapshot() == Next(old(Snapshot()), PoolMachine.Action.Kill(w))
      ensures old(LiveCount(workers)) >= LeastThreads(limits, msgQueue, futureQueue) ==>
                LiveCount(workers) >= LeastThreads(limits, msgQueue, futureQueue)
    {
      if futureQueue == [] {
        var n := CountThreads();
        if n > LeastThreads(limits, msgQueue, futureQueue) && IdleTooLong(workers[w], idleSince, now) {
          LiveCountUpdate(workers, w, workers[w].(exitFlag := true));
          workers := workers[w := workers[w].(exitFlag := true)];
        }
      }
    }
  }
}
