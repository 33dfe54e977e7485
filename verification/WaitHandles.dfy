/**
  How many wait handles the upload's coordinator collects.

  Before it waits it lists two events for every message that is not done, its queue's
  and the pool's, in an array of 64; reaching 62 before the end of the list is called
  impossible.  Here is when that happens.
*/
module WaitHandles {
  import opened MultipartUpload
  import PartPlan

  const MAXIMUM_WAIT_OBJECTS: nat := 64

  /** Some message is met when the array has no room for two more. */
  predicate Overflows(pending: seq<Message>) {
    exists k :: 0 <= k < |pending| && 2 * Unfinished(pending[..k]) >= MAXIMUM_WAIT_OBJECTS - 2
  }

  datatype Event = QueueEvent(part: nat) | PoolEvent

  /** The events to wait for, until there is no room for more. */
  method CollectHandles(pending: seq<Message>) returns (events: seq<Event>, overflow: bool)
    ensures overflow <==> Overflows(pending)
    ensures !overflow ==> |events| == 2 * Unfinished(pending)
    ensures |events| <= MAXIMUM_WAIT_OBJECTS - 2
    ensures !overflow ==> forall m :: m in pending && !m.done ==> QueueEvent(m.part) in events
  {
    events := [];
    for k := 0 to |pending|
      invariant |events| == 2 * Unfinished(pending[..k]) <= MAXIMUM_WAIT_OBJECTS - 2
      invariant forall i :: 0 <= i < k ==> 2 * Unfinished(pending[..i]) < MAXIMUM_WAIT_OBJECTS - 2
      invariant forall i :: 0 <= i < k && !pending[i].done ==> QueueEvent(pending[i].part) in events
    {
      if |events| >= MAXIMUM_WAIT_OBJECTS - 2 {
        return events, true;
      }
      assert pending[..k+1][..k] == pending[..k];
      if !pending[k].done {
        events := events + [QueueEvent(pending[k].part), PoolEvent];
      }
    }
    assert pending[..|pending|] == pending;
    return events, false;
  }

  // ------------------------------------------------------------- the bound

  lemma {:induction false} UnfinishedPrefix(pending: seq<Message>, k: nat)
    requires k <= |pending|
    ensures Unfinished(pending[..k]) <= Unfinished(pending) && Unfinished(pending) <= |pending|
    decreases |pending|
  {
    var n := |pending| - 1;
    if k == |pending| {
      assert pending[..k] == pending;
      if k > 0 { UnfinishedPrefix(pending[..n], 0); }
    } else {
      UnfinishedPrefix(pending[..n], k);
      assert pending[..n][..k] == pending[..k];
    }
  }

  /** What taking a message off the list, or finishing one, does to the count. */
  lemma {:induction false} UnfinishedErase(pending: seq<Message>, k: nat)
    requires k < |pending|
    ensures Unfinished(pending[..k] + pending[k+1..]) == Unfinished(pending) - (if pending[k].done then 0 else 1)
    decreases |pending|
  {
    var n := |pending| - 1;
    var rest := pending[..k] + pending[k+1..];
    if k == n {
      assert rest == pending[..n];
    } else {
      UnfinishedErase(pending[..n], k);
      assert rest[..n-1] == pending[..n][..k] + pending[..n][k+1..];
      assert rest[n-1] == pending[n];
    }
  }

  lemma {:induction false} UnfinishedUpdate(pending: seq<Message>, k: nat, m: Message)
    requires k < |pending|
    ensures Unfinished(pending[k := m]) + (if pending[k].done then 0 else 1) == Unfinished(pending) + (if m.done then 0 else 1)
    decreases |pending|
  {
    var n := |pending| - 1;
    if k == n {
      assert pending[k := m][..n] == pending[..n];
    } else {
      UnfinishedUpdate(pending[..n], k, m);
      assert pending[k := m][..n] == pending[..n][k := m];
    }
  }

  /** Short of the last message there is less than the pool's room. */
  predicate Bounded(c: Config, pending: seq<Message>) {
    pending == [] || Unfinished(pending[..|pending|-1]) < c.Room()
  }

  lemma UpdateStaysBounded(c: Config, pending: seq<Message>, k: nat, m: Message)
    requires k < |pending| && Bounded(c, pending) && (pending[k].done ==> m.done)
    ensures Bounded(c, pending[k := m])
  {
    var n := |pending| - 1;
    if k < n {
      UnfinishedUpdate(pending[..n], k, m);
      assert pending[k := m][..n] == pending[..n][k := m];
    } else {
      assert pending[k := m][..n] == pending[..n];
    }
  }

  lemma EraseStaysBounded(c: Config, pending: seq<Message>, k: nat)
    requires k < |pending| && Bounded(c, pending)
    ensures Bounded(c, pending[..k] + pending[k+1..])
  {
    var n := |pending| - 1;
    var rest := pending[..k] + pending[k+1..];
    if n > 0 {
      if k < n {
        UnfinishedErase(pending[..n], k);
        assert rest[..n-1] == pending[..n][..k] + pending[..n][k+1..];
      } else {
        UnfinishedPrefix(pending[..n], n - 1);
        assert rest[..n-1] == pending[..n][..n-1];
      }
    }
  }

  lemma NextStaysBounded(c: Config, s: State, a: Action)
    requires Enabled(c, s, a) && Bounded(c, s.pending)
    ensures Bounded(c, Next(c, s, a).pending)
  {
    hide Bounded, Unfinished;
    var s' := Next(c, s, a);
    if a.StartPart? {
      StartStaysBounded(c, s, a.queued, a.sought);
    } else if a.ReapDone? {
      EraseStaysBounded(c, s.pending, s.pc.k);
    } else if a.SendPart? {
      UpdateStaysBounded(c, s.pending, |s.pending| - 1, s'.pending[|s.pending|-1]);
    } else if a.WorkerPop? || a.WorkerOk? || a.WorkerFail? {
      UpdateStaysBounded(c, s.pending, a.k, s'.pending[a.k]);
    } else {
      assert s'.pending == s.pending;
    }
  }

  lemma StartStaysBounded(c: Config, s: State, queued: nat, sought: bool)
    requires Enabled(c, s, StartPart(queued, sought))
    ensures Bounded(c, Next(c, s, StartPart(queued, sought)).pending)
  {
    var after := Next(c, s, StartPart(queued, sought)).pending;
    assert after[..|after|-1] == s.pending;
  }

  lemma {:induction false} RunStaysBounded(c: Config, states: seq<State>, actions: seq<Action>, i: nat)
    requires IsRun(c, states, actions) && i < |states|
    ensures Bounded(c, states[i].pending)
  {
    hide Enabled, Next;
    if i > 0 {
      hide Bounded;
      RunStaysBounded(c, states, actions, i - 1);
      NextStaysBounded(c, states[i-1], actions[i-1]);
    }
  }

  /** In every state of every run: no more messages are unfinished than the pool has room for, nor more than there are parts. */
  lemma UnfinishedIsBounded(c: Config, states: seq<State>, actions: seq<Action>, i: nat, k: nat)
    requires c.Valid() && IsRun(c, states, actions) && i < |states| && k < |states[i].pending|
    ensures Unfinished(states[i].pending[..k]) < c.Room() && Unfinished(states[i].pending) <= c.Room()
    ensures Unfinished(states[i].pending[..k]) <= k < |c.plan|
  {
    hide Invariant, IsRun;
    var pending := states[i].pending;
    var n := |pending| - 1;
    RunStaysBounded(c, states, actions, i);
    assert pending[..n][..k] == pending[..k];
    UnfinishedPrefix(pending[..n], k);
    UnfinishedPrefix(pending[..k], k);
    OneMessageEach(c, states, actions, i);
  }

  /** There are no more messages than parts. */
  lemma OneMessageEach(c: Config, states: seq<State>, actions: seq<Action>, i: nat)
    requires c.Valid() && IsRun(c, states, actions) && i < |states|
    ensures |states[i].pending| <= |c.plan|
  {
    RunKeeps(c, states, actions, i);
    DistinctFit(seq(|states[i].pending|, k requires 0 <= k < |states[i].pending| => states[i].pending[k].part), |c.plan|);
  }

  lemma {:induction false} DistinctFit(s: seq<nat>, n: nat)
    requires forall k :: 0 <= k < |s| ==> s[k] < n
    requires forall k, l :: 0 <= k < l < |s| ==> s[k] != s[l]
    ensures |s| <= n
    decreases n
  {
    if s != [] {
      assert s[0] < n;
      if k :| 0 <= k < |s| && s[k] == n - 1 {
        DistinctFit(s[..k] + s[k+1..], n - 1);
      } else {
        DistinctFit(s, n - 1);
      }
    }
  }

  // --------------------------------------------------------- filling the pool

  ghost predicate Reached(c: Config, s: State) {
    exists states, actions :: IsRun(c, states, actions) && states[|actions|] == s
  }

  lemma ReachNext(c: Config, s: State, a: Action)
    requires Reached(c, s) && Enabled(c, s, a)
    ensures Reached(c, Next(c, s, a))
  {
    hide Enabled, Next;
    var states, actions :| IsRun(c, states, actions) && states[|actions|] == s;
    assert IsRun(c, states + [Next(c, s, a)], actions + [a]);
  }

  /** `i` parts are with the pool, none of them done; the others have not been started. */
  predicate Filled(c: Config, s: State, i: nat) {
    && |s.parts| == |c.plan| && |s.pending| == i <= |c.plan|
    && (forall k :: 0 <= k < i ==> s.pending[k].part == k && !s.pending[k].done)
    && (forall j :: i <= j < |c.plan| ==> s.parts[j] == NEW_PART)
  }

  lemma {:induction false} AllUnfinished(pending: seq<Message>)
    requires forall k :: 0 <= k < |pending| ==> !pending[k].done
    ensures Unfinished(pending) == |pending|
  {
    if pending != [] {
      AllUnfinished(pending[..|pending|-1]);
    }
  }

  /** The feed loop of part `i`, to the end of its reads and the send. */
  lemma {:induction false} FeedToTheEnd(c: Config, s: State, i: nat) returns (s': State)
    requires c.bufSize >= 1 && Reached(c, s) && Filled(c, s, i + 1)
    requires s.pc.Fill? && s.pc.i == i < |c.plan| && s.pos + s.pc.remaining <= |c.file|
    ensures Reached(c, s') && Filled(c, s', i + 1) && s'.pc == Scan(i + 1, true)
    decreases s.pc.remaining
  {
    if FillMore(c, s.pc) {
      ReachNext(c, s, FillRead(1));
      s' := FeedToTheEnd(c, Next(c, s, FillRead(1)), i);
    } else {
      ReachNext(c, s, SendPart);
      s' := Next(c, s, SendPart);
    }
  }

  /** Parts are started one after the other while the pool has room. */
  lemma {:induction false} FillThePool(c: Config, i: nat) returns (s: State)
    requires c.Valid() && c.bufSize >= 1 && i <= |c.plan| && i <= c.Room()
    ensures Reached(c, s) && Filled(c, s, i) && s.pc == Scan(i, i > 0)
  {
    if i == 0 {
      assert IsRun(c, [Init(c)], []);
      ReachNext(c, Init(c), Initiate(true));
      s := Next(c, Init(c), Initiate(true));
    } else {
      var before := FillThePool(c, i - 1);
      AllUnfinished(before.pending);
      var start := StartPart(i - 1, true);
      ReachNext(c, before, start);
      s := FeedToTheEnd(c, Next(c, before, start), i - 1);
    }
  }

  /** With workers that are slow, the coordinator comes to wait with the pool full or every part in it. */
  lemma PoolFillsUp(c: Config, n: nat) returns (s: State)
    requires c.Valid() && c.bufSize >= 1 && 1 <= n
    requires n == if c.Room() < |c.plan| then c.Room() else |c.plan|
    ensures Reached(c, s) && s.pc == Wait && |s.pending| == n == Unfinished(s.pending)
    ensures forall k :: 0 <= k < n ==> !s.pending[k].done
  {
    var full := FillThePool(c, n);
    AllUnfinished(full.pending);
    var a := if n < |c.plan| then Enough(n) else ScanEnd;
    ReachNext(c, full, a);
    s := Next(c, full, a);
  }

  ghost predicate CanOverflow(c: Config) {
    exists s :: Reached(c, s) && s.pc == Wait && Overflows(s.pending)
  }

  /** The branch that should never be taken is taken in some run exactly when the pool has room for 32 parts and there are as many. */
  lemma OverflowIff(c: Config)
    requires c.Valid() && c.bufSize >= 1
    ensures CanOverflow(c) <==> c.Room() >= 32 && |c.plan| >= 32
  {
    if c.Room() >= 32 && |c.plan| >= 32 {
      var s := PoolFillsUp(c, if c.Room() < |c.plan| then c.Room() else |c.plan|);
      AllUnfinished(s.pending[..31]);
      assert Overflows(s.pending);
    }
    if CanOverflow(c) {
      var s :| Reached(c, s) && s.pc == Wait && Overflows(s.pending);
      var states, actions :| IsRun(c, states, actions) && states[|actions|] == s;
      var k :| 0 <= k < |s.pending| && 2 * Unfinished(s.pending[..k]) >= MAXIMUM_WAIT_OBJECTS - 2;
      UnfinishedIsBounded(c, states, actions, |actions|, k);
    }
  }

  /** In terms of the limit on threads, short of the 32-bit wrap: from 28 threads on. */
  lemma OverflowThreads(c: Config)
    requires c.maxThreads < 0x1_0000_0000
    ensures c.Room() >= 32 <==> 28 <= c.maxThreads < 0xffff_fffc
  {
  }
}
