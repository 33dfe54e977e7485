/**
  The bounded queue shared by threads.  A push first looks at the size, under one
  hold of the lock, and adds its entry under another, so a producer is between
  the two while others run.
*/
module SharedQueue {
  import opened Basics

  // The limit the producers pass, and how many producers there are.
  datatype Config = Config(limit: nat, producers: nat)

  /**
    `waiting` are the producers in WaitForQueue and `ready` those that have left
    it, or passed the first test, and have yet to add their entry.  `pushed` and
    `popped` are histories.
  */
  datatype State = State(queue: seq<nat>, waiting: set<nat>, ready: set<nat>, pushed: seq<nat>, popped: seq<nat>)

  datatype Action =
    | BeginPush(p: nat)
    | Recheck(p: nat)
    | GiveUp(p: nat)
    | Push(p: nat, entry: nat, front: bool)
    | Pop(front: bool)
    | Clear

  const INIT := State([], {}, {}, [], [])

  predicate Enabled(c: Config, s: State, a: Action) {
    match a
    case BeginPush(p) => p < c.producers && p !in s.waiting && p !in s.ready
    case Recheck(p) => p in s.waiting
    case GiveUp(p) => p in s.waiting
    case Push(p, _, _) => p in s.ready
    case Pop(_) => s.queue != []
    case Clear => true
  }

  function Next(c: Config, s: State, a: Action): State
    requires Enabled(c, s, a)
  {
    match a
    case BeginPush(p) =>
      if c.limit > 0 && |s.queue| > c.limit then s.(waiting := s.waiting + {p}) else s.(ready := s.ready + {p})
    case Recheck(p) =>
      if |s.queue| > c.limit then s else s.(waiting := s.waiting - {p}, ready := s.ready + {p})
    case GiveUp(p) =>
      s.(waiting := s.waiting - {p}, ready := s.ready + {p})
    case Push(p, x, front) =>
      s.(queue := if front then [x] + s.queue else s.queue + [x], ready := s.ready - {p}, pushed := s.pushed + [x])
    case Pop(front) =>
      var k := if front then 0 else |s.queue| - 1;
      s.(queue := s.queue[..k] + s.queue[k+1..], popped := s.popped + [s.queue[k]])
    case Clear => s.(queue := [])
  }

  ghost predicate IsRun(c: Config, states: seq<State>, actions: seq<Action>) {
    && |states| == |actions| + 1
    && states[0] == INIT
    && forall i :: 0 <= i < |actions| ==> Enabled(c, states[i], actions[i]) && states[i+1] == Next(c, states[i], actions[i])
  }

  ghost predicate NoAbort(actions: seq<Action>) {
    forall i :: 0 <= i < |actions| ==> !actions[i].GiveUp?
  }

  predicate IsBelow(i: nat, n: nat) {
    i < n
  }

  function Below(n: nat): set<nat> {
    set i: nat | i < n && IsBelow(i, n)
  }

  lemma {:induction false} BelowSize(n: nat)
    ensures |Below(n)| == n
  {
    if n > 0 {
      BelowSize(n - 1);
      assert IsBelow(n - 1, n);
      forall i | i in Below(n - 1) ensures i in Below(n) { assert IsBelow(i, n); }
      forall i | i in Below(n) && i != n - 1 ensures i in Below(n - 1) { assert IsBelow(i, n - 1); }
      assert Below(n) == Below(n - 1) + {n - 1};
    }
  }

  lemma RoomFor(c: Config, ready: set<nat>, p: nat)
    requires ready <= Below(c.producers) && p < c.producers && p !in ready
    ensures |ready + {p}| == |ready| + 1 <= c.producers
  {
    BelowSize(c.producers);
    assert ready + {p} <= Below(c.producers);
    SubsetSize(ready + {p}, Below(c.producers));
  }

  /** Entries in the queue and entries about to be added never exceed the limit and the producers. */
  ghost predicate Bounded(c: Config, s: State) {
    && s.ready <= Below(c.producers)
    && s.waiting <= Below(c.producers)
    && s.ready !! s.waiting
    && |s.queue| + |s.ready| <= c.limit + c.producers
  }

  lemma NextKeepsBound(c: Config, s: State, a: Action)
    requires c.limit > 0 && Bounded(c, s) && Enabled(c, s, a) && !a.GiveUp?
    ensures Bounded(c, Next(c, s, a))
  {
    if a.BeginPush? || a.Recheck? {
      RoomFor(c, s.ready, a.p);
    }
  }

  /** In every run in which no waiting producer gives up, the queue holds at most limit + producers entries. */
  lemma {:induction false} NeverAboveLimitPlusProducers(c: Config, states: seq<State>, actions: seq<Action>, i: nat)
    requires c.limit > 0 && IsRun(c, states, actions) && NoAbort(actions) && i < |states|
    ensures Bounded(c, states[i]) && |states[i].queue| <= c.limit + c.producers
  {
    if i > 0 {
      NeverAboveLimitPlusProducers(c, states, actions, i - 1);
      NextKeepsBound(c, states[i-1], actions[i-1]);
    }
  }

  ghost predicate ReachedBy(c: Config, s: State, states: seq<State>, actions: seq<Action>, aborts: bool) {
    IsRun(c, states, actions) && states[|actions|] == s && (aborts || NoAbort(actions))
  }

  ghost predicate Reachable(c: Config, s: State, aborts: bool) {
    exists states, actions :: ReachedBy(c, s, states, actions, aborts)
  }

  lemma InitIsReachable(c: Config, aborts: bool)
    ensures Reachable(c, INIT, aborts)
  {
    assert ReachedBy(c, INIT, [INIT], [], aborts);
  }

  lemma StepIsReachable(c: Config, s: State, a: Action, aborts: bool)
    requires Reachable(c, s, aborts) && Enabled(c, s, a) && (aborts || !a.GiveUp?)
    ensures Reachable(c, Next(c, s, a), aborts)
  {
    var states, actions :| ReachedBy(c, s, states, actions, aborts);
    var states', actions' := states + [Next(c, s, a)], actions + [a];
    forall i | 0 <= i < |actions'| ensures Enabled(c, states'[i], actions'[i]) && states'[i+1] == Next(c, states'[i], actions'[i]) {
      if i < |actions| {
        assert states'[i] == states[i] && states'[i+1] == states[i+1];
      }
    }
    assert ReachedBy(c, Next(c, s, a), states', actions', aborts);
  }

  lemma {:induction false} FillToLimit(c: Config, n: nat) returns (s: State)
    requires n <= c.limit && c.producers > 0
    ensures Reachable(c, s, false) && |s.queue| == n && s.ready == {} == s.waiting
  {
    if n == 0 {
      InitIsReachable(c, false);
      s := INIT;
    } else {
      s := FillToLimit(c, n - 1);
      StepIsReachable(c, s, BeginPush(0), false);
      s := Next(c, s, BeginPush(0));
      StepIsReachable(c, s, Push(0, 0, false), false);
      s := Next(c, s, Push(0, 0, false));
    }
  }

  lemma {:induction false} AllPassTheTest(c: Config, k: nat) returns (s: State)
    requires k <= c.producers && c.producers > 0
    ensures Reachable(c, s, false) && |s.queue| == c.limit && s.ready == Below(k) && s.waiting == {}
  {
    if k == 0 {
      s := FillToLimit(c, c.limit);
    } else {
      s := AllPassTheTest(c, k - 1);
      StepIsReachable(c, s, BeginPush(k - 1), false);
      s := Next(c, s, BeginPush(k - 1));
    }
  }

  lemma {:induction false} AllPush(c: Config, k: nat) returns (s: State)
    requires k <= c.producers && c.producers > 0
    ensures Reachable(c, s, false) && |s.queue| == c.limit + k && s.ready == Below(c.producers) - Below(k)
  {
    if k == 0 {
      s := AllPassTheTest(c, c.producers);
    } else {
      s := AllPush(c, k - 1);
      StepIsReachable(c, s, Push(k - 1, 0, false), false);
      s := Next(c, s, Push(k - 1, 0, false));
    }
  }

  /** The bound cannot be lowered: for every limit and number of producers some run reaches it. */
  lemma BoundIsReached(c: Config)
    requires c.producers > 0
    ensures exists s :: Reachable(c, s, false) && |s.queue| == c.limit + c.producers
  {
    var s := AllPush(c, c.producers);
  }

  /** Without a limit, or when waiting producers may give up, one producer fills the queue without bound. */
  lemma {:induction false} NoBoundOtherwise(c: Config, aborts: bool, n: nat) returns (s: State)
    requires c.producers > 0 && (c.limit == 0 || aborts)
    ensures Reachable(c, s, aborts) && |s.queue| == n && s.ready == {} == s.waiting
  {
    if n == 0 {
      InitIsReachable(c, aborts);
      s := INIT;
    } else {
      s := NoBoundOtherwise(c, aborts, n - 1);
      StepIsReachable(c, s, BeginPush(0), aborts);
      s := Next(c, s, BeginPush(0));
      if 0 in s.waiting {
        StepIsReachable(c, s, GiveUp(0), aborts);
        s := Next(c, s, GiveUp(0));
      }
      StepIsReachable(c, s, Push(0, 0, false), aborts);
      s := Next(c, s, Push(0, 0, false));
    }
  }

  ghost predicate HasBound(c: Config, aborts: bool, bound: nat) {
    forall s :: Reachable(c, s, aborts) ==> |s.queue| <= bound
  }

  /** The size of the queue is bounded exactly when there is a limit and nobody gives up waiting. */
  lemma BoundedIff(c: Config, aborts: bool)
    requires c.producers > 0
    ensures (exists bound: nat :: HasBound(c, aborts, bound)) <==> (c.limit > 0 && !aborts)
    ensures c.limit > 0 && !aborts ==> forall bound: nat :: HasBound(c, aborts, bound) <==> c.limit + c.producers <= bound
  {
    if c.limit > 0 && !aborts {
      forall s | Reachable(c, s, aborts) ensures |s.queue| <= c.limit + c.producers {
        var states, actions :| ReachedBy(c, s, states, actions, aborts);
        NeverAboveLimitPlusProducers(c, states, actions, |actions|);
      }
      assert HasBound(c, aborts, c.limit + c.producers);
      BoundIsReached(c);
    } else {
      forall bound: nat ensures !HasBound(c, aborts, bound) {
        var s := NoBoundOtherwise(c, aborts, bound + 1);
      }
    }
  }

  /** Pushes at the back, pops from the front, never cleared. */
  ghost predicate FirstInFirstOut(actions: seq<Action>) {
    forall i :: 0 <= i < |actions| ==> (actions[i].Push? ==> !actions[i].front) && (actions[i].Pop? ==> actions[i].front) && !actions[i].Clear?
  }

  /** What was taken out, followed by what is still inside, is what was put in, in that order. */
  lemma {:induction false} TakenInOrder(c: Config, states: seq<State>, actions: seq<Action>, i: nat)
    requires IsRun(c, states, actions) && FirstInFirstOut(actions) && i < |states|
    ensures states[i].popped + states[i].queue == states[i].pushed
  {
    if i > 0 {
      TakenInOrder(c, states, actions, i - 1);
    }
  }

  lemma StepConserves(c: Config, s: State, a: Action)
    requires Enabled(c, s, a) && !a.Clear? && multiset(s.pushed) == multiset(s.popped) + multiset(s.queue)
    ensures var s' := Next(c, s, a); multiset(s'.pushed) == multiset(s'.popped) + multiset(s'.queue)
  {
    if a.Pop? {
      var k := if a.front then 0 else |s.queue| - 1;
      assert s.queue == s.queue[..k] + [s.queue[k]] + s.queue[k+1..];
    }
  }

  /** At whichever ends entries are pushed and popped: what was pushed and not cleared was popped or is inside, each as often. */
  lemma {:induction false} EntriesAreConserved(c: Config, states: seq<State>, actions: seq<Action>, i: nat)
    requires IsRun(c, states, actions) && i < |states|
    requires forall k :: 0 <= k < i ==> !actions[k].Clear?
    ensures multiset(states[i].pushed) == multiset(states[i].popped) + multiset(states[i].queue)
  {
    if i > 0 {
      hide Enabled, Next;
      EntriesAreConserved(c, states, actions, i - 1);
      StepConserves(c, states[i-1], actions[i-1]);
    }
  }
}
