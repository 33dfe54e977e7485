/** How many threads a pool may have: the ceiling, the minimum, and what adding threads does. */
module ThreadLimits {
  import opened Basics
  import opened MessageQueue
  import opened PoolMachine

  const UINT32: nat := 0x1_0000_0000

  /** The settings of a pool, each a 32-bit number. */
  datatype Limits = Limits(maxThreads: nat, minThreads: nat, maxThreadsRange: nat, queueRangeMin: nat, queueRangeMax: nat) {
    predicate Valid() {
      maxThreads < UINT32 && minThreads < UINT32 && maxThreadsRange < UINT32 && queueRangeMin < UINT32 && queueRangeMax < UINT32
    }
  }

  /** `x` of `d` parts of `r`, in 32-bit arithmetic. */
  function Share(x: nat, r: nat, d: nat): nat
    requires d > 0
  {
    ((x * r) % UINT32) / d
  }

  /** The thread ceiling for a queue length, in 32-bit arithmetic. */
  function Ceiling(c: Limits, queueSize: nat): nat {
    if c.queueRangeMin == 0 || queueSize < c.queueRangeMin then c.maxThreads
    else if queueSize > c.queueRangeMax then c.maxThreadsRange
    else if c.queueRangeMax > c.queueRangeMin then
      (Share(queueSize - c.queueRangeMin, (c.maxThreadsRange - c.maxThreads) % UINT32, c.queueRangeMax - c.queueRangeMin)
       + c.maxThreads) % UINT32
    else c.maxThreads
  }

  /** Settings for which the proportional ceiling is what it is meant to be. */
  predicate Proportional(c: Limits) {
    && c.Valid() && 0 < c.queueRangeMin < c.queueRangeMax && c.maxThreads <= c.maxThreadsRange
    && (c.queueRangeMax - c.queueRangeMin) * (c.maxThreadsRange - c.maxThreads) < UINT32
  }

  lemma QuotientBelow(p: nat, r: nat, d: nat)
    requires d > 0 && p < d * r
    ensures p / d < r
  {
  }

  lemma QuotientExact(d: nat, r: nat)
    requires d > 0
    ensures (d * r) / d == r
  {
    QuotientBelow(d * r, r + 1, d);
    if (d * r) / d < r {
      MulMonotone((d * r) / d + 1, r, d);
    }
  }

  lemma DivMonotone(a: nat, b: nat, d: nat)
    requires a <= b && d > 0
    ensures a / d <= b / d
  {
    if a / d > b / d {
      MulMonotone(b / d + 1, a / d, d);
    }
  }

  lemma ShareIsMonotone(x: nat, y: nat, r: nat, d: nat)
    requires d > 0 && x <= y <= d && d * r < UINT32
    ensures 0 == Share(0, r, d) <= Share(x, r, d) <= Share(y, r, d) <= Share(d, r, d) == r
  {
    MulMonotone(x, y, r);
    MulMonotone(y, d, r);
    DivMonotone(x * r, y * r, d);
    DivMonotone(y * r, d * r, d);
    QuotientExact(d, r);
  }

  /** The whole share is all of `r` exactly when the product fits. */
  lemma WholeShareIff(r: nat, d: nat)
    requires d > 0
    ensures Share(d, r, d) == r <==> d * r < UINT32
    ensures Share(d, r, d) <= r
  {
    QuotientExact(d, r);
    if d * r >= UINT32 {
      QuotientBelow((d * r) % UINT32, r, d);
    }
  }

  /** How far a queue length is into the range. */
  function Clamp(c: Limits, q: nat): nat
    requires c.queueRangeMin <= c.queueRangeMax
  {
    if q < c.queueRangeMin then 0
    else if q > c.queueRangeMax then c.queueRangeMax - c.queueRangeMin
    else q - c.queueRangeMin
  }

  lemma SmallModulo(x: nat)
    requires x < UINT32
    ensures x % UINT32 == x
  {
  }

  lemma CeilingIsShare(c: Limits, q: nat)
    requires Proportional(c)
    ensures Ceiling(c, q) == Share(Clamp(c, q), c.maxThreadsRange - c.maxThreads, c.queueRangeMax - c.queueRangeMin) + c.maxThreads
  {
    hide Share;
    var d, r := c.queueRangeMax - c.queueRangeMin, c.maxThreadsRange - c.maxThreads;
    ShareIsMonotone(Clamp(c, q), d, r, d);
    SmallModulo(r);
    SmallModulo(Share(Clamp(c, q), r, d) + c.maxThreads);
  }

  /** The ceiling grows with the queue, from the base maximum to the range maximum, and meets both. */
  lemma CeilingIsMonotone(c: Limits, q: nat, q': nat)
    requires Proportional(c) && q <= q'
    ensures c.maxThreads <= Ceiling(c, q) <= Ceiling(c, q') <= c.maxThreadsRange
    ensures Ceiling(c, c.queueRangeMin) == c.maxThreads && Ceiling(c, c.queueRangeMax) == c.maxThreadsRange
  {
    var d, r := c.queueRangeMax - c.queueRangeMin, c.maxThreadsRange - c.maxThreads;
    ShareIsMonotone(Clamp(c, q), Clamp(c, q'), r, d);
    CeilingIsShare(c, q);
    CeilingIsShare(c, q');
    CeilingIsShare(c, c.queueRangeMin);
    CeilingIsShare(c, c.queueRangeMax);
  }

  /** Outside the range the ceiling is one of the maxima; inside, each message adds its share of the difference, rounded down. */
  lemma CeilingIsProportional(c: Limits, q: nat)
    requires c.Valid()
    ensures c.queueRangeMin == 0 || q < c.queueRangeMin ==> Ceiling(c, q) == c.maxThreads
    ensures 0 < c.queueRangeMin <= q && q > c.queueRangeMax ==> Ceiling(c, q) == c.maxThreadsRange
    ensures Proportional(c) && c.queueRangeMin <= q <= c.queueRangeMax ==>
              var x, r, d := q - c.queueRangeMin, c.maxThreadsRange - c.maxThreads, c.queueRangeMax - c.queueRangeMin;
              Ceiling(c, q) >= c.maxThreads && (Ceiling(c, q) - c.maxThreads) * d <= x * r < (Ceiling(c, q) - c.maxThreads + 1) * d
  {
    if Proportional(c) && c.queueRangeMin <= q <= c.queueRangeMax {
      CeilingIsShare(c, q);
      ShareIsFloor(q - c.queueRangeMin, c.maxThreadsRange - c.maxThreads, c.queueRangeMax - c.queueRangeMin);
    }
  }

  lemma ShareIsFloor(x: nat, r: nat, d: nat)
    requires d > 0 && x <= d && d * r < UINT32
    ensures Share(x, r, d) * d <= x * r < (Share(x, r, d) + 1) * d
  {
    MulMonotone(x, d, r);
    SmallModulo(x * r);
  }

  /** The range maximum is reached at the end of the range exactly when the product fits in 32 bits. */
  lemma CeilingMeetsRangeIff(c: Limits)
    requires c.Valid() && 0 < c.queueRangeMin < c.queueRangeMax && c.maxThreads <= c.maxThreadsRange
    ensures Ceiling(c, c.queueRangeMax) == c.maxThreadsRange
            <==> (c.queueRangeMax - c.queueRangeMin) * (c.maxThreadsRange - c.maxThreads) < UINT32
  {
    var d, r := c.queueRangeMax - c.queueRangeMin, c.maxThreadsRange - c.maxThreads;
    assert r % UINT32 == r;
    WholeShareIff(r, d);
    assert Ceiling(c, c.queueRangeMax) == Share(d, r, d) + c.maxThreads;
  }

  function LiveCount(ws: seq<Worker>): nat {
    if ws == [] then 0 else LiveCount(ws[..|ws|-1]) + (if ws[|ws|-1].active && !ws[|ws|-1].exitFlag then 1 else 0)
  }

  lemma {:induction false} LiveCountUpdate(ws: seq<Worker>, w: nat, x: Worker)
    requires w < |ws|
    ensures LiveCount(ws[w := x]) + (if ws[w].active && !ws[w].exitFlag then 1 else 0)
            == LiveCount(ws) + (if x.active && !x.exitFlag then 1 else 0)
  {
    var n := |ws| - 1;
    if w == n {
      assert ws[w := x][..n] == ws[..n];
    } else {
      LiveCountUpdate(ws[..n], w, x);
      assert ws[w := x][..n] == ws[..n][w := x];
    }
  }

  lemma StartWorkerAddsOne(ws: seq<Worker>)
    ensures LiveCount(StartWorker(ws)) == LiveCount(ws) + 1
  {
    var k := FirstInactive(ws);
    if k < |ws| {
      LiveCountUpdate(ws, k, StartWorker(ws)[k]);
    } else {
      assert StartWorker(ws)[..|ws|] == ws;
    }
  }

  function AtLeast(live: nat, least: nat): nat {
    if live < least then least else live
  }

  /** How many threads live after `AddThreads`, in the 32-bit arithmetic of the source. */
  function ThreadsAfter(live: nat, ceiling: nat, least: nat, useful: bool): nat {
    if live >= ceiling then live
    else
      var n := AtLeast(live, least);
      if HasRoom(ceiling, n) && useful then n + 1 else n
  }

  /** Would one more thread than `n` find a message it may run? */
  predicate Useful(queue: seq<Entry>, ws: seq<Worker>, n: nat) {
    |queue| > n && IfInGroup(ws, queue[0].group)
  }

  /** Adding threads stays within the ceiling exactly when the minimum does. */
  lemma CeilingHoldsIffMinimumDoes(live: nat, ceiling: nat, least: nat, useful: bool)
    requires live < ceiling < UINT32
    ensures ThreadsAfter(live, ceiling, least, useful) <= ceiling <==> least <= ceiling
  {
  }

  /** The configured minimum, except that one thread stays while anything is queued. */
  function LeastThreads(c: Limits, queue: seq<Entry>, future: seq<Entry>): (least: nat)
    ensures least >= 1 <==> c.minThreads >= 1 || queue != [] || future != []
    ensures c.minThreads >= 1 ==> least == c.minThreads
    ensures c.minThreads == 0 ==> least <= 1
  {
    if c.minThreads > 0 then c.minThreads
    else if future == [] && queue == [] then c.minThreads
    else 1
  }

  function StartMany(ws: seq<Worker>, n: nat): seq<Worker> {
    if n == 0 then ws else StartWorker(StartMany(ws, n - 1))
  }

  /** A thread that has stopped is not in use. */
  ghost predicate StoppedIsIdle(ws: seq<Worker>) {
    forall w :: 0 <= w < |ws| && !ws[w].active ==> !ws[w].inUse
  }

  /** New threads come up idle, so they do not change which groups may run. */
  lemma {:induction false} StartManyIsIdle(ws: seq<Worker>, n: nat, group: nat)
    requires StoppedIsIdle(ws)
    ensures StoppedIsIdle(StartMany(ws, n))
    ensures IfInGroup(StartMany(ws, n), group) == IfInGroup(ws, group)
    ensures LiveCount(StartMany(ws, n)) == LiveCount(ws) + n
  {
    if n > 0 {
      StartManyIsIdle(ws, n - 1, group);
      var ws' := StartMany(ws, n - 1);
      StartWorkerAddsOne(ws');
      StartWorkerIsIdle(ws', group);
    }
  }

  lemma StartWorkerIsIdle(ws: seq<Worker>, group: nat)
    requires StoppedIsIdle(ws)
    ensures StoppedIsIdle(StartWorker(ws))
    ensures IfInGroup(StartWorker(ws), group) == IfInGroup(ws, group)
  {
    var ws' := StartWorker(ws);
    var k := FirstInactive(ws);
    forall w | 0 <= w < |ws| ensures ws'[w] == ws[w] || (w == k && !ws[w].inUse && !ws'[w].inUse) {}
    if IfInGroup(ws', group) {
      forall w | 0 <= w < |ws| && ws[w].inUse && (group != DONT_CARE || ws[w].group != DONT_CARE)
        ensures group < ALONE_BASE && ws[w].group < ALONE_BASE && ws[w].group == group
      {
        assert ws'[w] == ws[w];
      }
    }
  }

  lemma StartManyStep(ws: seq<Worker>, n: nat)
    ensures StartMany(ws, n + 1) == StartWorker(StartMany(ws, n))
  {
  }

  /** The second list is the first with `n` threads started. */
  ghost predicate Grown(ws: seq<Worker>, ws': seq<Worker>, n: nat) {
    ws' == StartMany(ws, n)
  }

  lemma GrowByOne(ws: seq<Worker>, ws': seq<Worker>, n: nat)
    requires Grown(ws, ws', n)
    ensures Grown(ws, StartWorker(ws'), n + 1)
  {
  }

  lemma GrownCount(ws: seq<Worker>, ws': seq<Worker>, n: nat)
    requires StoppedIsIdle(ws) && Grown(ws, ws', n)
    ensures ws' == StartMany(ws, n) && LiveCount(ws') == LiveCount(ws) + n
  {
    StartManyIsIdle(ws, n, 0);
  }

  lemma {:induction false} StartManyMore(ws: seq<Worker>, a: nat, b: nat)
    ensures StartMany(StartMany(ws, a), b) == StartMany(ws, a + b)
  {
    if b > 0 {
      StartManyMore(ws, a, b - 1);
    }
  }

  /** How many threads `AddThreads` starts. */
  function ThreadsAdded(ws: seq<Worker>, queue: seq<Entry>, ceiling: nat, least: nat): nat {
    var live := LiveCount(ws);
    ThreadsAfter(live, ceiling, least, Useful(queue, ws, AtLeast(live, least))) - live
  }

  predicate HasRoom(ceiling: nat, n: nat) {
    (ceiling - n) % UINT32 > 0
  }

  lemma ThreadsAddedNone(ws: seq<Worker>, queue: seq<Entry>, ceiling: nat, least: nat)
    requires LiveCount(ws) >= ceiling
    ensures ThreadsAdded(ws, queue, ceiling, least) == 0 && StartMany(ws, 0) == ws
  {
  }

  lemma ThreadsAddedBelow(ws: seq<Worker>, queue: seq<Entry>, ceiling: nat, least: nat)
    requires LiveCount(ws) < ceiling
    ensures var n := AtLeast(LiveCount(ws), least);
            ThreadsAdded(ws, queue, ceiling, least) == n - LiveCount(ws) + (if HasRoom(ceiling, n) && Useful(queue, ws, n) then 1 else 0)
  {
  }

  /** Below the ceiling: up to the minimum, and one more if the queue is longer than that and its head may run. */
  lemma ThreadsAddedMeaning(ws: seq<Worker>, queue: seq<Entry>, ceiling: nat, least: nat)
    requires StoppedIsIdle(ws)
    ensures var live := LiveCount(ws);
            var n := if live < least then least else live;
            LiveCount(StartMany(ws, ThreadsAdded(ws, queue, ceiling, least)))
            == if live >= ceiling then live
               else if (ceiling - n) % UINT32 != 0 && |queue| > n && IfInGroup(ws, queue[0].group) then n + 1 else n
  {
    StartManyIsIdle(ws, ThreadsAdded(ws, queue, ceiling, least), 0);
  }

  /** The live threads are the active ones that have not been asked to exit. */
  lemma {:induction false} LiveCountIsSize(ws: seq<Worker>)
    ensures LiveCount(ws) == |set w | 0 <= w < |ws| && ws[w].active && !ws[w].exitFlag|
  {
    if ws != [] {
      var n := |ws| - 1;
      var before := set w | 0 <= w < n && ws[..n][w].active && !ws[..n][w].exitFlag;
      LiveCountIsSize(ws[..n]);
      var all := set w | 0 <= w < |ws| && ws[w].active && !ws[w].exitFlag;
      assert all == before + (if ws[n].active && !ws[n].exitFlag then {n} else {});
    }
  }

  /** A stopped entry of the list is put to use again if there is one, the first of them, else the list grows. */
  lemma StartReusesStopped(ws: seq<Worker>)
    ensures var ws' := StartWorker(ws);
            && ((forall w :: 0 <= w < |ws| ==> ws[w].active) ==> |ws'| == |ws| + 1 && ws'[..|ws|] == ws)
            && (forall k :: 0 <= k < |ws| && !ws[k].active && (forall w :: 0 <= w < k ==> ws[w].active) ==>
                  |ws'| == |ws| && ws' == ws[k := ws'[k]] && ws'[k].active && !ws'[k].exitFlag && !ws'[k].inUse && ws'[k].job == Waiting)
  {
  }

  /**
    When the minimum is at most the ceiling, adding threads never lifts the live count
    above the ceiling; when it is not, a pool below the ceiling ends above it.
  */
  lemma AddedThreadsRespectCeiling(ws: seq<Worker>, queue: seq<Entry>, ceiling: nat, least: nat)
    requires StoppedIsIdle(ws) && LiveCount(ws) < ceiling < UINT32
    ensures LiveCount(StartMany(ws, ThreadsAdded(ws, queue, ceiling, least))) <= ceiling <==> least <= ceiling
  {
    StartManyIsIdle(ws, ThreadsAdded(ws, queue, ceiling, least), 0);
    CeilingHoldsIffMinimumDoes(LiveCount(ws), ceiling, least, Useful(queue, ws, AtLeast(LiveCount(ws), least)));
  }
}
