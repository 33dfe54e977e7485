/**
  Whole runs in which threads start only where the source starts them, in the
  locked part of `AddThreads`: how many threads can be live.
*/
module ThreadRuns {
  import opened MessageQueue
  import opened PoolMachine
  import opened ThreadLimits

  // Any region of the pool but a bare thread start, or `AddThreads` with the queue size it read before it took the lock.
  datatype Region = Plain(a: Action) | AddThreads(queueSize: nat)

  predicate CanRun(s: Pool, r: Region) {
    if r.Plain? then Enabled(s, r.a) && !r.a.StartThread? else r.queueSize < UINT32
  }

  function Added(c: Limits, s: Pool, queueSize: nat): nat {
    ThreadsAdded(s.workers, s.queue, Ceiling(c, queueSize), LeastThreads(c, s.queue, s.future))
  }

  function After(c: Limits, s: Pool, r: Region): Pool
    requires CanRun(s, r)
  {
    match r
    case Plain(a) => Next(s, a)
    case AddThreads(queueSize) => s.(workers := StartMany(s.workers, Added(c, s, queueSize)))
  }

  ghost predicate IsRegionRun(c: Limits, states: seq<Pool>, regions: seq<Region>) {
    && |states| == |regions| + 1
    && states[0] == Init(states[0].now)
    && forall i :: 0 <= i < |regions| ==> CanRun(states[i], regions[i]) && states[i+1] == After(c, states[i], regions[i])
  }

  // ---------------------------------------------------------- live threads

  lemma {:induction false} LiveCountConcat(a: seq<Worker>, b: seq<Worker>)
    ensures LiveCount(a + b) == LiveCount(a) + LiveCount(b)
  {
    if b == [] {
      assert a + b == a;
    } else {
      var n := |b| - 1;
      LiveCountConcat(a, b[..n]);
      assert (a + b)[..|a + b|-1] == a + b[..n];
    }
  }

  lemma LiveCountWithout(a: seq<Worker>, x: Worker, b: seq<Worker>, ws: seq<Worker>, rest: seq<Worker>)
    requires ws == a + [x] + b && rest == a + b
    ensures LiveCount(rest) <= LiveCount(ws)
  {
    LiveCountConcat(a, b);
    LiveCountConcat(a + [x], b);
    LiveCountConcat(a, [x]);
  }

  lemma SplitAt(ws: seq<Worker>, w: nat)
    requires w < |ws|
    ensures ws == ws[..w] + [ws[w]] + ws[w+1..]
  {
  }

  lemma SetWorkerKeepsLive(s: Pool, a: Action)
    requires Enabled(s, a)
    requires a.Guard? || a.Pick? || a.Refuse? || a.Return? || a.Idle? || a.Kill? || a.Exit?
    ensures LiveCount(Next(s, a).workers) <= LiveCount(s.workers)
  {
    var x := OneWorkerChanges(s, a);
    hide Next, Enabled;
    LiveCountUpdate(s.workers, a.w, x);
  }

  lemma OneWorkerChanges(s: Pool, a: Action) returns (x: Worker)
    requires Enabled(s, a)
    requires a.Guard? || a.Pick? || a.Refuse? || a.Return? || a.Idle? || a.Kill? || a.Exit?
    ensures a.w < |s.workers| && Next(s, a).workers == s.workers[a.w := x]
    ensures x.active && !x.exitFlag ==> s.workers[a.w].active && !s.workers[a.w].exitFlag
  {
    match a
    case Guard(w) => x := s.workers[w].(job := Ready);
    case Pick(w) => x := Next(s, a).workers[w];
    case Refuse(w) => x := Next(s, a).workers[w];
    case Return(w, _) => x := s.workers[w].(job := Finishing);
    case Idle(w) => x := s.workers[w].(inUse := false, job := Waiting);
    case Kill(w) => x := s.workers[w].(exitFlag := true);
    case Exit(w) => x := s.workers[w].(active := false, inUse := false);
  }

  /** Only thread starts add live threads. */
  lemma PlainRegionsAddNoThread(s: Pool, a: Action)
    requires Enabled(s, a) && !a.StartThread?
    ensures LiveCount(Next(s, a).workers) <= LiveCount(s.workers)
  {
    if a.Reclaim? {
      SplitAt(s.workers, a.w);
      LiveCountWithout(s.workers[..a.w], s.workers[a.w], s.workers[a.w+1..], s.workers, Next(s, a).workers);
    } else if a.Guard? || a.Pick? || a.Refuse? || a.Return? || a.Idle? || a.Kill? || a.Exit? {
      SetWorkerKeepsLive(s, a);
    } else if a.Terminate? {
      assert Next(s, a).workers == [];
    } else {
      assert Next(s, a).workers == s.workers;
    }
  }

  // ------------------------------------------------------------- invariant

  /** Starting any number of threads at once is that many thread starts, so it keeps the pool's invariant. */
  lemma {:induction false} StartManyKeeps(s: Pool, n: nat)
    requires Invariant(s)
    ensures Invariant(s.(workers := StartMany(s.workers, n)))
  {
    if n == 0 {
      assert s.(workers := StartMany(s.workers, n)) == s;
    } else {
      var before := s.(workers := StartMany(s.workers, n - 1));
      StartManyKeeps(s, n - 1);
      NextKeeps(before, StartThread);
      assert Next(before, StartThread) == s.(workers := StartMany(s.workers, n));
    }
  }

  /** So everything the pool's invariant says holds of these runs too. */
  lemma {:induction false} RegionRunKeeps(c: Limits, states: seq<Pool>, regions: seq<Region>, i: nat)
    requires IsRegionRun(c, states, regions) && i < |states|
    ensures Invariant(states[i])
  {
    hide Enabled, Next, StartMany;
    if i == 0 {
      assert PayloadSeq([]) == [];
    } else {
      hide Invariant;
      RegionRunKeeps(c, states, regions, i - 1);
      match regions[i-1]
      case Plain(a) => NextKeeps(states[i-1], a);
      case AddThreads(q) => StartManyKeeps(states[i-1], Added(c, states[i-1], q));
    }
  }

  lemma InvariantMeansIdle(s: Pool)
    requires Invariant(s)
    ensures StoppedIsIdle(s.workers)
  {
    forall w | 0 <= w < |s.workers| && !s.workers[w].active ensures !s.workers[w].inUse {
      assert WorkerOk(s.queue, s.workers[w]);
    }
  }

  // ------------------------------------------------------------- theorems

  /**
    No ceiling of these settings lies above the bound, and where the minimum lies above a
    ceiling that lets threads start at all, it leaves room for one more thread.
  */
  ghost predicate SettingsBelow(c: Limits, bound: nat) {
    forall q: nat :: q < UINT32 ==>
      Ceiling(c, q) <= bound && (Ceiling(c, q) == 0 || c.minThreads <= Ceiling(c, q) || c.minThreads < bound)
  }

  lemma AddThreadsStaysBelow(c: Limits, s: Pool, q: nat, bound: nat)
    requires c.Valid() && q < UINT32 && SettingsBelow(c, bound) && StoppedIsIdle(s.workers) && LiveCount(s.workers) <= bound
    ensures LiveCount(StartMany(s.workers, Added(c, s, q))) <= bound
  {
    StartManyIsIdle(s.workers, Added(c, s, q), 0);
  }

  lemma RegionStaysBelow(c: Limits, s: Pool, r: Region, bound: nat)
    requires c.Valid() && SettingsBelow(c, bound) && Invariant(s) && CanRun(s, r) && LiveCount(s.workers) <= bound
    ensures LiveCount(After(c, s, r).workers) <= bound
  {
    hide Enabled, Next, Invariant, SettingsBelow, LiveCount;
    match r
    case Plain(a) => PlainRegionsAddNoThread(s, a);
    case AddThreads(q) =>
      InvariantMeansIdle(s);
      AddThreadsStaysBelow(c, s, q, bound);
  }

  /** In every run the live threads stay below any bound that the ceilings and the minimum stay below. */
  lemma {:induction false} LiveThreadsStayBelow(c: Limits, states: seq<Pool>, regions: seq<Region>, i: nat, bound: nat)
    requires c.Valid() && IsRegionRun(c, states, regions) && i < |states| && SettingsBelow(c, bound)
    ensures LiveCount(states[i].workers) <= bound
  {
    if i > 0 {
      hide CanRun, After, Invariant, SettingsBelow, LiveCount;
      LiveThreadsStayBelow(c, states, regions, i - 1, bound);
      RegionRunKeeps(c, states, regions, i - 1);
      RegionStaysBelow(c, states[i-1], regions[i-1], bound);
    }
  }

  ghost predicate NeverAbove(c: Limits, bound: nat) {
    forall states: seq<Pool>, regions: seq<Region>, i: nat :: IsRegionRun(c, states, regions) && i < |states| ==> LiveCount(states[i].workers) <= bound
  }

  // ------------------------------------------------- reaching the bound

  ghost predicate ReachedBy(c: Limits, s: Pool, states: seq<Pool>, regions: seq<Region>) {
    IsRegionRun(c, states, regions) && states[|regions|] == s
  }

  ghost predicate Reachable(c: Limits, s: Pool) {
    exists states: seq<Pool>, regions: seq<Region> :: ReachedBy(c, s, states, regions)
  }

  lemma StepIsReachable(c: Limits, s: Pool, r: Region)
    requires Reachable(c, s) && CanRun(s, r)
    ensures Reachable(c, After(c, s, r))
  {
    hide Enabled, Next, StartMany;
    var states: seq<Pool>, regions: seq<Region> :| ReachedBy(c, s, states, regions);
    var states', regions' := states + [After(c, s, r)], regions + [r];
    forall i | 0 <= i < |regions'| ensures CanRun(states'[i], regions'[i]) && states'[i+1] == After(c, states'[i], regions'[i]) {
      if i < |regions| {
        assert states'[i] == states[i] && states'[i+1] == states[i+1];
      }
    }
    assert ReachedBy(c, After(c, s, r), states', regions');
  }

  /** Messages of no particular group wait, and no worker in use keeps them from running. */
  ghost predicate HasWork(s: Pool, n: nat) {
    && |s.queue| == n
    && (forall e :: e in s.queue ==> e.group == DONT_CARE)
    && StoppedIsIdle(s.workers) && IfInGroup(s.workers, DONT_CARE)
  }

  lemma {:induction false} WorkArrives(c: Limits, n: nat) returns (s: Pool)
    ensures Reachable(c, s) && HasWork(s, n) && s.workers == []
  {
    if n == 0 {
      s := Init(0);
      assert ReachedBy(c, s, [s], []);
    } else {
      var before := WorkArrives(c, n - 1);
      var r := Plain(Send(0, 0, DONT_CARE, 0));
      StepIsReachable(c, before, r);
      s := After(c, before, r);
      InsertMembers(before.queue, Entry(before.nextId, 0, 0, DONT_CARE, 0, 0, false));
    }
  }

  lemma AddingKeepsWork(c: Limits, s: Pool, q: nat, n: nat)
    requires HasWork(s, n) && q < UINT32
    ensures HasWork(After(c, s, AddThreads(q)), n)
    ensures LiveCount(After(c, s, AddThreads(q)).workers) == LiveCount(s.workers) + Added(c, s, q)
  {
    StartManyIsIdle(s.workers, Added(c, s, q), DONT_CARE);
  }

  /** With enough work, thread by thread, the pool fills up to a ceiling. */
  lemma {:induction false} PoolFillsUp(c: Limits, q: nat, k: nat, n: nat) returns (s: Pool)
    requires c.Valid() && q < UINT32 && k <= Ceiling(c, q) && k <= n
    ensures Reachable(c, s) && HasWork(s, n) && LiveCount(s.workers) >= k
  {
    if k == 0 {
      s := WorkArrives(c, n);
    } else {
      s := PoolFillsUp(c, q, k - 1, n);
      if LiveCount(s.workers) < k {
        assert s.queue[0] in s.queue;
        AddingKeepsWork(c, s, q, n);
        StepIsReachable(c, s, AddThreads(q));
        s := After(c, s, AddThreads(q));
      }
    }
  }

  /** A minimum above a ceiling that lets threads start is overshot by one thread when there is work for it. */
  lemma MinimumIsOvershot(c: Limits, q: nat) returns (s: Pool)
    requires c.Valid() && q < UINT32 && 0 < Ceiling(c, q) < c.minThreads
    ensures Reachable(c, s) && LiveCount(s.workers) == c.minThreads + 1
  {
    var before := WorkArrives(c, c.minThreads + 1);
    assert LiveCount(before.workers) == 0;
    assert before.queue[0] in before.queue;
    AddingKeepsWork(c, before, q, c.minThreads + 1);
    StepIsReachable(c, before, AddThreads(q));
    s := After(c, before, AddThreads(q));
  }

  /** For all settings and every bound: the live threads never exceed it in any run exactly when the settings stay below it. */
  lemma BoundHoldsIff(c: Limits, bound: nat)
    requires c.Valid()
    ensures NeverAbove(c, bound) <==> SettingsBelow(c, bound)
  {
    if SettingsBelow(c, bound) {
      forall states: seq<Pool>, regions: seq<Region>, i: nat | IsRegionRun(c, states, regions) && i < |states|
        ensures LiveCount(states[i].workers) <= bound
      {
        LiveThreadsStayBelow(c, states, regions, i, bound);
      }
    } else {
      var q: nat :| q < UINT32 && !(Ceiling(c, q) <= bound && (Ceiling(c, q) == 0 || c.minThreads <= Ceiling(c, q) || c.minThreads < bound));
      var s: Pool;
      if Ceiling(c, q) > bound {
        s := PoolFillsUp(c, q, bound + 1, bound + 1);
      } else {
        s := MinimumIsOvershot(c, q);
      }
      var states: seq<Pool>, regions: seq<Region> :| ReachedBy(c, s, states, regions);
      assert LiveCount(states[|regions|].workers) > bound;
    }
  }

  /** Without a queue range, the maximum is never exceeded in any run exactly when it is not below the minimum, or no thread may start at all. */
  lemma FixedMaximumHoldsIff(c: Limits)
    requires c.Valid() && c.queueRangeMin == 0
    ensures NeverAbove(c, c.maxThreads) <==> c.minThreads <= c.maxThreads || c.maxThreads == 0
  {
    BoundHoldsIff(c, c.maxThreads);
    assert Ceiling(c, 0) == c.maxThreads;
  }

  /** With proportional settings the range maximum is never exceeded, if the minimum is within the base maximum or below the range maximum. */
  lemma RangeMaximumHolds(c: Limits)
    requires Proportional(c) && (c.minThreads <= c.maxThreads || c.minThreads < c.maxThreadsRange)
    ensures NeverAbove(c, c.maxThreadsRange)
  {
    forall q: nat ensures c.maxThreads <= Ceiling(c, q) <= c.maxThreadsRange {
      CeilingIsMonotone(c, q, q);
    }
    BoundHoldsIff(c, c.maxThreadsRange);
  }
}
