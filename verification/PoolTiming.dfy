/**
  When a message starts before the time its sender asked for.  A delayed message
  waits for its time in the future queue, or carries it into the message queue; only
  the transfer that a stopping pool makes drops the time, and only a pool that is put
  to use again after that can start such a message.
*/
module PoolTiming {
  import opened MessageQueue
  import opened PoolMachine

  /** The two are one entry, whether or not it is being processed. */
  predicate SameEntry(a: Entry, b: Entry) {
    b == a.(processing := b.processing)
  }

  ghost predicate Stems(q: seq<Entry>, e: Entry) {
    exists x :: x in q && SameEntry(x, e)
  }

  /** A new entry, from a sender or from a transfer. */
  predicate IsNew(s: Pool, a: Action, e: Entry) {
    && Enabled(s, a)
    && e.id == s.nextId
    && ((a.Send? && e.due == e.notBefore) || (a.SendDue? && e.due == 0 && e.notBefore == s.transfers[a.t].e.notBefore))
  }

  lemma StemsUpdate(q: seq<Entry>, k: nat, processing: bool, e: Entry)
    requires k < |q| && e in q[k := q[k].(processing := processing)]
    ensures Stems(q, e)
  {
    var i :| 0 <= i < |q| && q[k := q[k].(processing := processing)][i] == e;
    assert SameEntry(q[i], e);
  }

  lemma StemsMember(q: seq<Entry>, e: Entry)
    requires e in q
    ensures Stems(q, e)
  {
    assert SameEntry(e, e);
  }

  lemma EntriesStemReturn(s: Pool, w: nat, processed: bool, e: Entry)
    requires Enabled(s, Return(w, processed)) && e in DoReturn(s, w, processed).queue
    ensures Stems(s.queue, e)
  {
    var k := Find(s.queue, s.workers[w].job.id);
    if processed {
      assert e in s.queue;
      StemsMember(s.queue, e);
    } else {
      StemsUpdate(s.queue, k, false, e);
    }
  }

  /** Every entry was there before the step, or the step sent it. */
  lemma EntriesStem(s: Pool, a: Action, e: Entry)
    requires Enabled(s, a) && e in Next(s, a).queue
    ensures Stems(s.queue, e) || IsNew(s, a, e)
  {
    if a.Send? {
      var due := DelayTime(s.now, a.delay);
      SentStems(s.queue, Entry(s.nextId, a.payload, a.priority, a.group, due, due, false), e);
    } else if a.SendDue? {
      var r := s.transfers[a.t].e;
      SentStems(s.queue, Entry(s.nextId, r.payload, r.priority, r.group, 0, r.notBefore, false), e);
    } else if a.Pick? {
      StemsUpdate(s.queue, FirstWaiting(s.queue), true, e);
    } else if a.Return? {
      EntriesStemReturn(s, a.w, a.processed, e);
    } else if a.KillMessages? {
      SurvivorsAndKilled(s.queue, a.victims);
      StemsMember(s.queue, e);
    } else {
      OtherStepsLeaveQueue(s, a);
      StemsMember(s.queue, e);
    }
  }

  lemma SentStems(q: seq<Entry>, sent: Entry, e: Entry)
    requires e in Insert(q, sent)
    ensures e == sent || Stems(q, e)
  {
    InsertMembers(q, sent);
    if e in q {
      StemsMember(q, e);
    }
  }

  lemma OtherStepsLeaveQueue(s: Pool, a: Action)
    requires Enabled(s, a) && !a.Send? && !a.SendDue? && !a.Pick? && !a.Return? && !a.KillMessages?
    ensures Next(s, a).queue == s.queue
  {
    hide Enabled, StartWorker;
  }

  lemma ClocksAdvance(s: Pool, a: Action)
    requires Enabled(s, a)
    ensures Next(s, a).now >= s.now && Next(s, a).nextId >= s.nextId
    ensures a.SendDue? ==> Next(s, a).nextId == s.nextId + 1
  {
    hide Enabled, Survivors, Killed, Insert;
    if ByWorker(a) {
      WorkersLeaveRest(s, a);
      hide Next;
    }
  }

  lemma {:induction false} ClocksAdvanced(states: seq<Pool>, actions: seq<Action>, j: nat, i: nat)
    requires IsRun(states, actions) && j <= i <= |actions|
    ensures states[i].now >= states[j].now && states[i].nextId >= states[j].nextId
  {
    hide Next, Enabled;
    if j < i {
      ClocksAdvanced(states, actions, j, i - 1);
      ClocksAdvance(states[i-1], actions[i-1]);
    }
  }

  // ------------------------------------------------------ where times get lost

  /** Step `j` of a run sends on a record as the entry with this id. */
  ghost predicate Forwards(states: seq<Pool>, actions: seq<Action>, j: nat, id: nat) {
    j < |actions| < |states| && actions[j].SendDue? && Enabled(states[j], actions[j]) && states[j].nextId == id
  }

  function Forwarded(states: seq<Pool>, actions: seq<Action>, j: nat): Transfer
    requires j < |actions| < |states| && actions[j].SendDue? && Enabled(states[j], actions[j])
  {
    states[j].transfers[actions[j].t]
  }

  ghost predicate ForwardedAs(states: seq<Pool>, actions: seq<Action>, j: nat, e: Entry) {
    Forwards(states, actions, j, e.id) && e.due == 0 && e.notBefore == Forwarded(states, actions, j).e.due
  }

  ghost predicate WasForwarded(states: seq<Pool>, actions: seq<Action>, i: nat, e: Entry) {
    exists j: nat :: j < i && ForwardedAs(states, actions, j, e)
  }

  lemma QueuedIdsBelow(states: seq<Pool>, actions: seq<Action>, i: nat, e: Entry)
    requires IsRun(states, actions) && i < |states| && e in states[i].queue
    ensures e.id < states[i].nextId
  {
    hide Next, Enabled;
    RunKeeps(states, actions, i);
  }

  /** What a transfer forwards keeps its time, and unless the pool is stopping that time has come. */
  lemma ForwardedTime(states: seq<Pool>, actions: seq<Action>, j: nat, id: nat)
    requires IsRun(states, actions) && Forwards(states, actions, j, id)
    ensures var tr := Forwarded(states, actions, j);
            tr.e.notBefore == tr.e.due && (tr.e.due <= states[j].now || tr.flush)
  {
    hide Next;
    RunKeeps(states, actions, j);
    assert TransferOk(states[j], Forwarded(states, actions, j));
  }

  lemma ForwardsBefore(states: seq<Pool>, actions: seq<Action>, j: nat, i: nat, id: nat)
    requires IsRun(states, actions) && Forwards(states, actions, j, id) && j < i <= |actions|
    ensures id < states[i].nextId
  {
    ClocksAdvance(states[j], actions[j]);
    hide Next, Enabled;
    ClocksAdvanced(states, actions, j + 1, i);
  }

  /** An entry carries the time its sender asked for, or was forwarded by a transfer. */
  lemma {:induction false} TimeIsKeptOrForwarded(states: seq<Pool>, actions: seq<Action>, i: nat, e: Entry)
    requires IsRun(states, actions) && i < |states| && e in states[i].queue
    ensures e.due == e.notBefore || WasForwarded(states, actions, i, e)
    decreases i
  {
    hide Next, Enabled;
    if i > 0 {
      EntriesStem(states[i-1], actions[i-1], e);
      if Stems(states[i-1].queue, e) {
        var x :| x in states[i-1].queue && SameEntry(x, e);
        TimeIsKeptOrForwarded(states, actions, i - 1, x);
        if x.due != x.notBefore {
          var j: nat :| j < i - 1 && ForwardedAs(states, actions, j, x);
          assert ForwardedAs(states, actions, j, e);
        }
      } else if actions[i-1].SendDue? {
        ForwardedTime(states, actions, i - 1, e.id);
        assert ForwardedAs(states, actions, i - 1, e);
      }
    }
  }

  /** An entry that a transfer forwarded stands for the record the transfer held. */
  lemma {:induction false} ForwardedKeepsTime(states: seq<Pool>, actions: seq<Action>, j: nat, i: nat, e: Entry)
    requires IsRun(states, actions) && Forwards(states, actions, j, e.id) && j < i < |states| && e in states[i].queue
    ensures e.notBefore == Forwarded(states, actions, j).e.due
    decreases i
  {
    hide Next, Enabled;
    EntriesStem(states[i-1], actions[i-1], e);
    ForwardedTime(states, actions, j, e.id);
    if j < i - 1 {
      ForwardsBefore(states, actions, j, i - 1, e.id);
    }
    if Stems(states[i-1].queue, e) {
      var x :| x in states[i-1].queue && SameEntry(x, e);
      QueuedIdsBelow(states, actions, i - 1, x);
      if j < i - 1 {
        ForwardedKeepsTime(states, actions, j, i - 1, x);
      }
    }
  }

  /** A stopping pool's transfer forwarded the entry, and the time of its record is still to come. */
  ghost predicate FlushedTooSoon(states: seq<Pool>, actions: seq<Action>, j: nat, id: nat, now: nat) {
    Forwards(states, actions, j, id) && Forwarded(states, actions, j).flush && Forwarded(states, actions, j).e.due > now
  }

  function Started(s: Pool): Entry
    requires MayStart(s)
  {
    s.queue[FirstWaiting(s.queue)]
  }

  /** A worker starts a message before the time its sender asked for. */
  ghost predicate StartsEarly(s: Pool, a: Action) {
    a.Pick? && Enabled(s, a) && Started(s).notBefore > s.now
  }

  /**
    In every run, a message starts before its time exactly when the transfer of a
    stopping pool forwarded it, and the time of its record has still not come.
  */
  lemma StartsEarlyIff(states: seq<Pool>, actions: seq<Action>, i: nat)
    requires IsRun(states, actions) && i < |actions| && actions[i].Pick?
    ensures StartsEarly(states[i], actions[i])
            <==> exists j: nat :: j < i && FlushedTooSoon(states, actions, j, Started(states[i]).id, states[i].now)
  {
    var s := states[i];
    var e := Started(s);
    if e.notBefore > s.now {
      TimeIsKeptOrForwarded(states, actions, i, e);
      var j: nat :| j < i && ForwardedAs(states, actions, j, e);
      ForwardedTime(states, actions, j, e.id);
      ClocksAdvanced(states, actions, j, i);
      assert FlushedTooSoon(states, actions, j, e.id, s.now);
    }
    if j: nat :| j < i && FlushedTooSoon(states, actions, j, e.id, s.now) {
      ForwardedKeepsTime(states, actions, j, i, e);
    }
  }

  // ------------------------------------------------- pools that are used again

  /** Once told to stop, the pool is not enabled again. */
  ghost predicate NoReuse(actions: seq<Action>) {
    forall j, k :: 0 <= j < k < |actions| && actions[j].Disable? ==> !actions[k].Enable?
  }

  ghost predicate AllWaiting(ws: seq<Worker>) {
    forall w :: 0 <= w < |ws| ==> ws[w].job.Waiting?
  }

  /** A stopped pool stays disabled, and its threads start nothing. */
  ghost predicate Closed(s: Pool) {
    && (s.stopping ==> s.disabled)
    && (s.flushed ==> s.stopping && AllWaiting(s.workers))
  }

  lemma WaitingPoolStaysClosed(s: Pool, a: Action)
    requires AllWaiting(s.workers) && s.disabled && Enabled(s, a)
    ensures AllWaiting(Next(s, a).workers)
  {
    WaitingPoolRunsNothing(s, a);
    hide Insert, Survivors, Killed, Enabled;
    var ws := Next(s, a).workers;
    if a.StartThread? {
      assert ws == StartWorker(s.workers);
    } else if a.Reclaim? {
      assert ws == s.workers[..a.w] + s.workers[a.w+1..];
    } else if a.Kill? || a.Exit? {
      assert ws == s.workers[a.w := ws[a.w]];
    } else {
      assert a.Terminate? || ws == s.workers;
    }
  }

  lemma WaitingPoolRunsNothing(s: Pool, a: Action)
    requires AllWaiting(s.workers) && s.disabled && Enabled(s, a)
    ensures !a.Guard? && !a.Pick? && !a.Refuse? && !a.Return? && !a.Idle?
    ensures a.Kill? || a.Exit? || a.Reclaim? ==> a.w < |s.workers|
  {
  }

  lemma TerminateEmpties(s: Pool)
    requires Enabled(s, Terminate)
    ensures s.stopping && Next(s, Terminate).workers == []
  {
  }

  lemma FlagsChange(s: Pool, a: Action)
    requires Enabled(s, a)
    ensures Next(s, a).stopping == (s.stopping || a.Disable?)
    ensures Next(s, a).disabled == ((s.disabled || a.Disable?) && !a.Enable?)
    ensures Next(s, a).flushed == (s.flushed || a.Terminate?)
  {
    hide Enabled, Survivors, Killed, Insert;
    if ByWorker(a) {
      WorkersLeaveRest(s, a);
      hide Next;
    }
  }

  lemma {:induction false} StoppingMeansDisabled(states: seq<Pool>, actions: seq<Action>, i: nat)
    requires IsRun(states, actions) && i < |states|
    ensures states[i].stopping <==> exists j :: 0 <= j < i && actions[j].Disable?
    ensures NoReuse(actions) && states[i].stopping ==> states[i].disabled
  {
    hide Next, Enabled;
    if i > 0 {
      StoppingMeansDisabled(states, actions, i - 1);
      FlagsChange(states[i-1], actions[i-1]);
    }
  }

  lemma {:induction false} ClosedWithoutReuse(states: seq<Pool>, actions: seq<Action>, i: nat)
    requires IsRun(states, actions) && NoReuse(actions) && i < |states|
    ensures Closed(states[i])
  {
    hide Enabled, Next;
    StoppingMeansDisabled(states, actions, i);
    if i > 0 {
      ClosedWithoutReuse(states, actions, i - 1);
      FlagsChange(states[i-1], actions[i-1]);
      if states[i-1].flushed {
        WaitingPoolStaysClosed(states[i-1], actions[i-1]);
      } else if actions[i-1].Terminate? {
        TerminateEmpties(states[i-1]);
      }
    }
  }

  /** A pool that is not used again after it was stopped starts no message before its time. */
  lemma OnTimeWithoutReuse(states: seq<Pool>, actions: seq<Action>, i: nat)
    requires IsRun(states, actions) && NoReuse(actions) && i < |actions|
    ensures !StartsEarly(states[i], actions[i])
  {
    if actions[i].Pick? {
      ClosedWithoutReuse(states, actions, i);
      RunKeeps(states, actions, i);
      assert OnTime(states[i], Started(states[i]));
      assert states[i].workers[actions[i].w].job == Ready;
    }
  }

  // ------------------------------------------------------------ an early start

  /** A message delayed by `delay` in a pool that is stopped and used again, state by state. */
  ghost function EarlyState(now: nat, payload: nat, delay: nat, i: nat): Pool {
    var due := now + delay * TICKS_PER_MS;
    var e, f := Entry(0, payload, 0, 0, due, due, false), Entry(1, payload, 0, 0, 0, due, false);
    var m := multiset{payload};
    if i == 0 then Init(now)
    else
      Pool(if i <= 5 then [] else [f],
           if i <= 6 then [e] else [],
           if i <= 8 then [] else [Worker(true, false, false, DONT_CARE, if i == 9 then Waiting else Ready)],
           if i <= 3 then map[]
           else if i == 4 then map[0 := Looking(now, true)]
           else if i == 5 then map[0 := Holding(now, true, e)]
           else if i == 6 then map[0 := Sent(now, true, e)]
           else map[0 := Looking(now, true)],
           if i <= 5 then 1 else 2, now, 2 <= i <= 7, 2 <= i, 3 <= i,
           m, multiset{}, multiset{}, if i <= 5 then multiset{} else m, if i <= 6 then multiset{} else m)
  }

  function EarlyActions(payload: nat, delay: nat): (actions: seq<Action>)
    ensures |actions| == 11
  {
    [SendDelayed(payload, 0, 0, delay), Disable, Terminate, BeginTransfer(0, true), FindDue(0), SendDue(0), EraseDue(0),
     Enable, StartThread, Guard(0), Pick(0)]
  }

  ghost predicate EarlyStep(now: nat, payload: nat, delay: nat, i: nat)
    requires i < 10
  {
    var s, a := EarlyState(now, payload, delay, i), EarlyActions(payload, delay)[i];
    Enabled(s, a) && Next(s, a) == EarlyState(now, payload, delay, i + 1)
  }

  lemma EarlyStops(now: nat, payload: nat, delay: nat)
    ensures EarlyStep(now, payload, delay, 0) && EarlyStep(now, payload, delay, 1)
  {
    hide StartWorker, Insert;
  }

  lemma EarlyEmpties(now: nat, payload: nat, delay: nat)
    ensures EarlyStep(now, payload, delay, 2) && EarlyStep(now, payload, delay, 3)
  {
    hide StartWorker, Insert;
  }

  lemma EarlyMoves(now: nat, payload: nat, delay: nat)
    ensures EarlyStep(now, payload, delay, 4) && EarlyStep(now, payload, delay, 5) && EarlyStep(now, payload, delay, 6)
  {
    hide Enabled, Next;
    var due := now + delay * TICKS_PER_MS;
    var e := Entry(0, payload, 0, 0, due, due, false);
    FindOnly(EarlyState(now, payload, delay, 4), 0, now, true, e);
    SendLast(EarlyState(now, payload, delay, 5), 0, now, true, e);
    EraseOnly(EarlyState(now, payload, delay, 6), 0, now, true, e);
  }

  lemma EarlyReopens(now: nat, payload: nat, delay: nat)
    ensures EarlyStep(now, payload, delay, 7) && EarlyStep(now, payload, delay, 8)
  {
    hide Insert;
    assert StartWorker([]) == [Worker(true, false, false, DONT_CARE, Waiting)];
  }

  lemma EarlyPasses(now: nat, payload: nat, delay: nat)
    ensures EarlyStep(now, payload, delay, 9)
  {
    hide StartWorker, Insert;
  }

  lemma EarlySteps(now: nat, payload: nat, delay: nat, i: nat)
    requires i < 10
    ensures EarlyStep(now, payload, delay, i)
  {
    EarlyStops(now, payload, delay);
    EarlyEmpties(now, payload, delay);
    EarlyMoves(now, payload, delay);
    EarlyReopens(now, payload, delay);
    EarlyPasses(now, payload, delay);
    hide EarlyStep;
    assert i in {0, 1, 2, 3, 4, 5, 6, 7, 8, 9};
  }

  lemma EarlyPick(now: nat, payload: nat, delay: nat)
    requires delay > 0
    ensures StartsEarly(EarlyState(now, payload, delay, 10), Pick(0))
  {
    assert FirstWaiting(EarlyState(now, payload, delay, 10).queue) == 0;
  }

  ghost function EarlyRun(now: nat, payload: nat, delay: nat): (states: seq<Pool>)
    requires delay > 0
    ensures |states| == 12
  {
    EarlyPick(now, payload, delay);
    seq(11, i requires 0 <= i < 11 => EarlyState(now, payload, delay, i)) + [Next(EarlyState(now, payload, delay, 10), Pick(0))]
  }

  /** A delayed message, a stop, a new start: the message runs before its time. */
  lemma ReuseStartsEarly(now: nat, payload: nat, delay: nat)
    requires delay > 0
    ensures IsRun(EarlyRun(now, payload, delay), EarlyActions(payload, delay))
    ensures StartsEarly(EarlyRun(now, payload, delay)[10], EarlyActions(payload, delay)[10])
  {
    var states, actions := EarlyRun(now, payload, delay), EarlyActions(payload, delay);
    EarlyPick(now, payload, delay);
    assert states[0] == Init(now);
    forall i | 0 <= i < |actions| ensures Enabled(states[i], actions[i]) && states[i+1] == Next(states[i], actions[i]) {
      if i < 10 {
        EarlySteps(now, payload, delay, i);
      }
    }
  }

  /** No run, or no run without reuse, starts a message early. */
  ghost predicate AlwaysOnTime(reuse: bool) {
    forall states: seq<Pool>, actions: seq<Action>, i: nat ::
      IsRun(states, actions) && (reuse || NoReuse(actions)) && i < |actions| ==> !StartsEarly(states[i], actions[i])
  }

  /** Messages always start on time exactly when a pool that was stopped is not put to use again. */
  lemma AlwaysOnTimeIff(reuse: bool)
    ensures AlwaysOnTime(reuse) <==> !reuse
  {
    hide Next, Enabled, EarlyState, StartsEarly;
    if reuse {
      ReuseStartsEarly(0, 0, 1);
    } else {
      forall states: seq<Pool>, actions: seq<Action>, i: nat | IsRun(states, actions) && NoReuse(actions) && i < |actions|
        ensures !StartsEarly(states[i], actions[i])
      {
        OnTimeWithoutReuse(states, actions, i);
      }
    }
  }
}
