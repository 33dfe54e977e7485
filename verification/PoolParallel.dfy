/** Messages of one ordinary group run side by side, as many as there are threads. */
module PoolParallel {
  import opened MessageQueue
  import opened PoolMachine

  ghost predicate Reached(s: Pool) {
    exists states, actions :: IsRun(states, actions) && states[|actions|] == s
  }

  lemma ReachNext(s: Pool, a: Action)
    requires Reached(s) && Enabled(s, a)
    ensures Reached(Next(s, a))
  {
    hide Enabled, Next;
    var states, actions :| IsRun(states, actions) && states[|actions|] == s;
    assert IsRun(states + [Next(s, a)], actions + [a]);
  }

  /** `n` messages of the group are queued, due at once, and the first `k` of them are being processed. */
  predicate Queued(s: Pool, n: nat, k: nat, group: nat) {
    && |s.queue| == n && !s.disabled
    && forall i :: 0 <= i < n ==>
         s.queue[i].group == group && s.queue[i].due == 0 && s.queue[i].priority == 0 && (s.queue[i].processing <==> i < k)
  }

  /** Of `n` workers the first `k` are at work on the group, the others wait. */
  predicate Working(s: Pool, n: nat, k: nat, group: nat) {
    && |s.workers| == n
    && forall w :: 0 <= w < n ==>
         var x := s.workers[w];
         x.active && !x.exitFlag
         && if w < k then x.inUse && x.group == group && x.job.Running? else !x.inUse && x.job == Waiting
  }

  lemma {:induction false} SendMany(n: nat, group: nat) returns (s: Pool)
    ensures Reached(s) && Queued(s, n, 0, group) && s.workers == []
  {
    if n == 0 {
      s := Init(0);
      var states: seq<Pool>, actions: seq<Action> := [s], [];
      assert IsRun(states, actions) && states[|actions|] == s;
    } else {
      var before := SendMany(n - 1, group);
      ReachNext(before, Send(n, 0, group, 0));
      s := Next(before, Send(n, 0, group, 0));
      assert InsertPoint(before.queue, 0) == n - 1;
    }
  }

  lemma {:induction false} StartMany(n: nat, m: nat, group: nat) returns (s: Pool)
    ensures Reached(s) && Queued(s, n, 0, group) && Working(s, m, 0, group)
  {
    if m == 0 {
      s := SendMany(n, group);
    } else {
      var before := StartMany(n, m - 1, group);
      ReachNext(before, StartThread);
      s := Next(before, StartThread);
      assert FirstInactive(before.workers) == m - 1;
    }
  }

  /** The next worker is past its guard. */
  predicate OneReady(s: Pool, n: nat, k: nat, group: nat) {
    && Queued(s, n, k, group) && k < n && |s.workers| == n
    && (forall w :: 0 <= w < n && w != k ==>
          var x := s.workers[w];
          x.active && !x.exitFlag
          && if w < k then x.inUse && x.group == group && x.job.Running? else !x.inUse && x.job == Waiting)
    && s.workers[k].active && !s.workers[k].exitFlag && !s.workers[k].inUse && s.workers[k].job == Ready
  }

  lemma OneGetsReady(s: Pool, n: nat, k: nat, group: nat)
    requires Queued(s, n, k, group) && Working(s, n, k, group) && k < n
    ensures Enabled(s, Guard(k)) && OneReady(Next(s, Guard(k)), n, k, group)
  {
  }

  lemma ReadyMayStart(s: Pool, n: nat, k: nat, group: nat)
    requires OneReady(s, n, k, group) && group < ALONE_BASE
    ensures FirstWaiting(s.queue) == k && Enabled(s, Pick(k))
  {
    assert !s.queue[k].processing && s.queue[k].group == group;
    assert FirstWaiting(s.queue) == k;
    assert IfInGroup(s.workers, group);
  }

  lemma ReadyStarts(s: Pool, n: nat, k: nat, group: nat)
    requires OneReady(s, n, k, group) && FirstWaiting(s.queue) == k && Enabled(s, Pick(k))
    ensures Queued(Next(s, Pick(k)), n, k + 1, group) && Working(Next(s, Pick(k)), n, k + 1, group)
  {
    hide Enabled, FirstWaiting;
  }

  lemma OneMoreRuns(s: Pool, n: nat, k: nat, group: nat) returns (s': Pool)
    requires Reached(s) && Queued(s, n, k, group) && Working(s, n, k, group) && k < n && group < ALONE_BASE
    ensures Reached(s') && Queued(s', n, k + 1, group) && Working(s', n, k + 1, group)
  {
    hide Enabled, Next, Queued, Working, OneReady, Reached;
    OneGetsReady(s, n, k, group);
    ReachNext(s, Guard(k));
    var ready := Next(s, Guard(k));
    ReadyMayStart(ready, n, k, group);
    ReadyStarts(ready, n, k, group);
    ReachNext(ready, Pick(k));
    s' := Next(ready, Pick(k));
  }

  lemma {:induction false} RunMany(n: nat, k: nat, group: nat) returns (s: Pool)
    requires k <= n && group < ALONE_BASE
    ensures Reached(s) && Queued(s, n, k, group) && Working(s, n, k, group)
  {
    if k == 0 {
      s := StartMany(n, n, group);
    } else {
      var before := RunMany(n, k - 1, group);
      s := OneMoreRuns(before, n, k - 1, group);
    }
  }

  /** For any number of workers and any group that need not run alone, some run has all of them at work on it at once. */
  lemma GroupRunsTogether(n: nat, group: nat)
    requires group < ALONE_BASE
    ensures exists states: seq<Pool>, actions: seq<Action> ::
              && IsRun(states, actions)
              && |states[|actions|].workers| == n
              && forall w :: 0 <= w < n ==> states[|actions|].workers[w].inUse && states[|actions|].workers[w].group == group
  {
    var s := RunMany(n, n, group);
    var states, actions :| IsRun(states, actions) && states[|actions|] == s;
  }

  /** So a group runs on two workers at once in some run exactly when it is below those that run alone. */
  lemma RunsTogetherIff(group: nat)
    ensures (exists states: seq<Pool>, actions: seq<Action>, i: nat, v: nat, w: nat ::
               BothRun(states, actions, i, v, w, group)) <==> group < 1000
  {
    if group < 1000 {
      GroupRunsTogether(2, group);
      var states: seq<Pool>, actions: seq<Action> :|
        IsRun(states, actions) && |states[|actions|].workers| == 2
        && forall w :: 0 <= w < 2 ==> states[|actions|].workers[w].inUse && states[|actions|].workers[w].group == group;
      assert BothRun(states, actions, |actions|, 0, 1, group);
    }
    if states: seq<Pool>, actions: seq<Action>, i: nat, v: nat, w: nat :| BothRun(states, actions, i, v, w, group) {
      GroupsNeverMix(states, actions, i, v, w);
    }
  }

  ghost predicate BothRun(states: seq<Pool>, actions: seq<Action>, i: nat, v: nat, w: nat, group: nat) {
    && IsRun(states, actions) && i < |states| && v != w && v < |states[i].workers| && w < |states[i].workers|
    && states[i].workers[v].inUse && states[i].workers[w].inUse && states[i].workers[v].group == group
  }
}
