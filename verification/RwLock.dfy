/**
  The re-entrant reader/writer lock, built on a system lock that is not
  re-entrant and on a list of the instances that use it.

  The state is a map of instances, each belonging to one thread, and the mode of
  the system lock.  An action is one step of one thread; other threads run between
  any two.  A thread that waits for the system lock takes no other step.
*/
module RwLock {
  import opened Basics

  /** The system lock.  `Corrupt` is what releasing it in the wrong mode leads to. */
  datatype Srw = Free | Exclusive | Shared(count: nat) | Corrupt

  /** A lock instance.  `outer` observes that it was this instance that took the system lock. */
  datatype Instance = Instance(thread: nat, locked: bool, write: bool, waiting: bool, outer: bool)

  datatype State = State(instances: map<nat, Instance>, srw: Srw)

  datatype Action =
    | Create(i: nat, thread: nat, write: bool)
    | Delete(i: nat)
    | Lock(i: nat, write: bool)
    | Acquire(i: nat)
    | Unlock(i: nat)

  const INIT := State(map[], Free)

  // ------------------------------------------------------------------ steps

  /** Another instance of the same thread, locked. */
  predicate IsOther(s: State, i: nat, j: nat)
    requires i in s.instances
  {
    j in s.instances && j != i && s.instances[j].thread == s.instances[i].thread && s.instances[j].locked
  }

  predicate OthersLocked(s: State, i: nat)
    requires i in s.instances
  {
    exists j :: j in s.instances && IsOther(s, i, j)
  }

  predicate OthersWrite(s: State, i: nat)
    requires i in s.instances
  {
    exists j :: j in s.instances && IsOther(s, i, j) && s.instances[j].write
  }

  predicate Blocked(s: State, thread: nat) {
    exists i :: i in s.instances && s.instances[i].thread == thread && s.instances[i].waiting
  }

  /** The thread of this instance can take a step. */
  predicate CanStep(s: State, i: nat) {
    i in s.instances && !Blocked(s, s.instances[i].thread)
  }

  predicate Admits(srw: Srw, write: bool) {
    srw.Free? || (!write && srw.Shared?)
  }

  function Take(srw: Srw, write: bool): Srw
    requires Admits(srw, write)
  {
    if write then Exclusive else if srw.Free? then Shared(1) else Shared(srw.count + 1)
  }

  function Release(srw: Srw, write: bool): Srw {
    if write then if srw.Exclusive? then Free else Corrupt
    else if srw.Shared? && srw.count == 1 then Free
    else if srw.Shared? && srw.count > 1 then Shared(srw.count - 1)
    else Corrupt
  }

  predicate Enabled(s: State, a: Action) {
    match a
    case Create(i, thread, _) => i !in s.instances && !Blocked(s, thread)
    case Delete(i) => CanStep(s, i) && !s.instances[i].locked
    case Lock(i, _) => CanStep(s, i) && !s.instances[i].locked
    case Acquire(i) => i in s.instances && s.instances[i].waiting && Admits(s.srw, s.instances[i].write)
    case Unlock(i) => CanStep(s, i) && s.instances[i].locked
  }

  function Set(s: State, i: nat, x: Instance): State {
    s.(instances := s.instances[i := x])
  }

  /** What an instance sees of the others of its thread does not depend on its own fields. */
  lemma OwnChangeKeepsOthers(s: State, i: nat, x: Instance)
    requires i in s.instances && x.thread == s.instances[i].thread
    ensures OthersLocked(Set(s, i, x), i) == OthersLocked(s, i) && OthersWrite(Set(s, i, x), i) == OthersWrite(s, i)
  {
    var s' := Set(s, i, x);
    forall j ensures IsOther(s', i, j) <==> IsOther(s, i, j) {
    }
  }

  /** A nested lock is granted at once, unless it asks to write while the thread only reads. */
  function DoLock(s: State, i: nat, write: bool): State
    requires Enabled(s, Lock(i, write))
  {
    var x := s.instances[i].(write := write, outer := false);
    if OthersLocked(s, i) && (OthersWrite(s, i) || !write) then Set(s, i, x.(locked := true))
    else Set(s, i, x.(waiting := true))
  }

  /** Only the thread's last locked instance gives the system lock back, in its own mode. */
  function DoUnlock(s: State, i: nat): State
    requires Enabled(s, Unlock(i))
  {
    var x := s.instances[i];
    var s' := Set(s, i, x.(locked := false));
    if OthersLocked(s, i) then s' else s'.(srw := Release(s.srw, x.write))
  }

  function Next(s: State, a: Action): State
    requires Enabled(s, a)
  {
    match a
    case Create(i, thread, write) => Set(s, i, Instance(thread, false, write, false, false))
    case Delete(i) => s.(instances := s.instances - {i})
    case Lock(i, write) => DoLock(s, i, write)
    case Acquire(i) =>
      var x := s.instances[i];
      Set(s, i, x.(locked := true, waiting := false, outer := true)).(srw := Take(s.srw, x.write))
    case Unlock(i) => DoUnlock(s, i)
  }

  lemma LockResult(s: State, i: nat, write: bool)
    requires Enabled(s, Lock(i, write)) && !s.instances[i].waiting
    ensures var granted := OthersLocked(s, i) && (OthersWrite(s, i) || !write);
            Next(s, Lock(i, write))
            == Set(s, i, s.instances[i].(write := write, outer := false, locked := granted, waiting := !granted))
  {
  }

  ghost predicate IsRun(states: seq<State>, actions: seq<Action>) {
    && |states| == |actions| + 1
    && states[0] == INIT
    && forall k :: 0 <= k < |actions| ==> Enabled(states[k], actions[k]) && states[k+1] == Next(states[k], actions[k])
  }

  // ------------------------------------------------------------- discipline

  /**
    What the caller must not do: unlock the only instance that writes while
    instances of the same thread that read stay locked.
  */
  predicate Careful(s: State, i: nat)
    requires i in s.instances
  {
    s.instances[i].write && OthersLocked(s, i) ==> OthersWrite(s, i)
  }

  ghost predicate IsCarefulRun(states: seq<State>, actions: seq<Action>) {
    && IsRun(states, actions)
    && forall k :: 0 <= k < |actions| && actions[k].Unlock? ==> Careful(states[k], actions[k].i)
  }

  /** The stack discipline: the instance that took the system lock is the last its thread unlocks. */
  ghost predicate IsStackRun(states: seq<State>, actions: seq<Action>) {
    && IsRun(states, actions)
    && forall k :: 0 <= k < |actions| && actions[k].Unlock? && states[k].instances[actions[k].i].outer ==>
         !OthersLocked(states[k], actions[k].i)
  }

  // -------------------------------------------------------------- invariant

  ghost function Holders(s: State): set<nat> {
    set i | i in s.instances && s.instances[i].locked :: s.instances[i].thread
  }

  ghost predicate WriterExists(s: State) {
    exists i :: i in s.instances && s.instances[i].locked && s.instances[i].write
  }

  /** The system lock is held once per thread that has a locked instance, and in write mode exactly when one of them writes. */
  ghost predicate LockOk(s: State) {
    match s.srw
    case Free => Holders(s) == {}
    case Exclusive => WriterExists(s) && |Holders(s)| == 1
    case Shared(count) => !WriterExists(s) && count == |Holders(s)| >= 1
    case Corrupt => false
  }

  ghost predicate InstanceOk(s: State, i: nat)
    requires i in s.instances
  {
    s.instances[i].waiting ==>
      !s.instances[i].locked && (OthersLocked(s, i) ==> s.instances[i].write && !OthersWrite(s, i))
  }

  ghost predicate Invariant(s: State) {
    && LockOk(s)
    && (forall i :: i in s.instances ==> InstanceOk(s, i))
    && (forall i, j :: i in s.instances && j in s.instances && i != j && s.instances[i].waiting && s.instances[j].waiting ==>
          s.instances[i].thread != s.instances[j].thread)
  }

  // ------------------------------------------------------- its preservation

  ghost predicate Holds(s: State, t: nat) {
    exists i :: i in s.instances && s.instances[i].locked && s.instances[i].thread == t
  }

  lemma HoldersHold(s: State)
    ensures forall t :: t in Holders(s) <==> Holds(s, t)
  {
  }

  lemma HoldersGrow(s: State, s': State)
    requires forall i :: i in s.instances && s.instances[i].locked ==> Holds(s', s.instances[i].thread)
    ensures Holders(s) <= Holders(s')
  {
  }

  /** The instances other than `i` are the same, and `i` is locked in neither state. */
  lemma UnlockedChangeKeepsHolders(s: State, s': State, i: nat)
    requires forall j :: j != i ==> (j in s.instances <==> j in s'.instances)
    requires forall j :: j != i && j in s.instances ==> s.instances[j] == s'.instances[j]
    requires i in s.instances ==> !s.instances[i].locked
    requires i in s'.instances ==> !s'.instances[i].locked
    ensures Holders(s) == Holders(s') && (WriterExists(s) <==> WriterExists(s'))
  {
  }

  /** Another instance of its thread is locked, so the thread holds the lock whether `i` is locked or not. */
  lemma NestedChangeKeepsHolders(s: State, i: nat, x: Instance)
    requires i in s.instances && x.thread == s.instances[i].thread && OthersLocked(s, i)
    ensures Holders(s) == Holders(Set(s, i, x))
  {
    var s' := Set(s, i, x);
    var o :| o in s.instances && IsOther(s, i, o);
    assert s'.instances[o] == s.instances[o];
    forall j | j in s.instances && s.instances[j].locked ensures Holds(s', s.instances[j].thread) {
      if j != i {
        assert s'.instances[j] == s.instances[j];
      }
    }
    forall j | j in s'.instances && s'.instances[j].locked ensures Holds(s, s'.instances[j].thread) {
      if j != i {
        assert s'.instances[j] == s.instances[j];
      } else {
        assert s.instances[o].thread == x.thread;
      }
    }
    HoldersGrow(s, s');
    HoldersGrow(s', s);
  }

  lemma SingleHolder(s: State, t: nat, u: nat)
    requires |Holders(s)| == 1 && t in Holders(s) && u in Holders(s)
    ensures t == u
  {
    SubsetSize({t, u}, Holders(s));
  }

  /** A step that changes one instance of a thread with no waiting instance leaves the waiting ones of others right. */
  lemma OtherThreadsKeep(s: State, i: nat, x: Instance)
    requires forall j :: j in s.instances ==> InstanceOk(s, j)
    requires i in s.instances && x.thread == s.instances[i].thread && !Blocked(s, x.thread)
    ensures forall j :: j in s.instances && j != i ==> InstanceOk(Set(s, i, x), j)
  {
  }

  lemma CreateKeeps(s: State, a: Action)
    requires Invariant(s) && Enabled(s, a) && a.Create?
    ensures Invariant(Next(s, a))
  {
    var s' := Next(s, a);
    UnlockedChangeKeepsHolders(s, s', a.i);
    forall j | j in s'.instances ensures InstanceOk(s', j) {
      if j != a.i {
        assert InstanceOk(s, j);
        forall k ensures IsOther(s', j, k) <==> IsOther(s, j, k) {}
      }
    }
  }

  lemma DeleteKeeps(s: State, i: nat)
    requires Invariant(s) && Enabled(s, Delete(i))
    ensures Invariant(Next(s, Delete(i)))
  {
    var s' := Next(s, Delete(i));
    UnlockedChangeKeepsHolders(s, s', i);
    forall j | j in s'.instances ensures InstanceOk(s', j) {
      assert InstanceOk(s, j);
      forall k ensures IsOther(s', j, k) <==> IsOther(s, j, k) {}
    }
  }

  lemma NestedLockKeeps(s: State, i: nat, write: bool)
    requires Invariant(s) && Enabled(s, Lock(i, write))
    requires OthersLocked(s, i) && (OthersWrite(s, i) || !write)
    ensures Invariant(DoLock(s, i, write))
  {
    var s' := DoLock(s, i, write);
    var x := s'.instances[i];
    OtherThreadsKeep(s, i, x);
    NestedChangeKeepsHolders(s, i, x);
    assert WriterExists(s') <==> WriterExists(s) by {
      if WriterExists(s) {
        var k :| k in s.instances && s.instances[k].locked && s.instances[k].write;
        assert s'.instances[k] == s.instances[k];
      }
      if write {
        var k :| k in s.instances && IsOther(s, i, k) && s.instances[k].write;
        assert WriterExists(s);
      }
    }
  }

  lemma WaitingLockKeeps(s: State, i: nat, write: bool)
    requires Invariant(s) && Enabled(s, Lock(i, write))
    requires !(OthersLocked(s, i) && (OthersWrite(s, i) || !write))
    ensures Invariant(DoLock(s, i, write))
  {
    var s' := DoLock(s, i, write);
    OtherThreadsKeep(s, i, s'.instances[i]);
    UnlockedChangeKeepsHolders(s, s', i);
    forall k ensures IsOther(s', i, k) <==> IsOther(s, i, k) {}
  }

  /** Taking the system lock adds the thread to its holders. */
  lemma AcquireAddsHolder(s: State, i: nat)
    requires Enabled(s, Acquire(i))
    ensures Holders(Next(s, Acquire(i))) == Holders(s) + {s.instances[i].thread}
  {
    var s' := Next(s, Acquire(i));
    HoldersHold(s);
    HoldersHold(s');
    assert s'.instances[i].locked;
    forall t | Holds(s, t) ensures Holds(s', t) {
      var j :| j in s.instances && s.instances[j].locked && s.instances[j].thread == t;
      assert s'.instances[j].locked && s'.instances[j].thread == t;
    }
    forall t | Holds(s', t) && t != s.instances[i].thread ensures Holds(s, t) {
      var j :| j in s'.instances && s'.instances[j].locked && s'.instances[j].thread == t;
      assert s.instances[j] == s'.instances[j];
    }
  }

  lemma NoHolderNoWriter(s: State)
    requires Holders(s) == {}
    ensures !WriterExists(s)
  {
    HoldersHold(s);
    forall j | j in s.instances ensures !s.instances[j].locked {
      assert !Holds(s, s.instances[j].thread);
    }
  }

  lemma WriterMeansExclusive(s: State)
    requires LockOk(s)
    ensures WriterExists(s) <==> s.srw.Exclusive?
  {
    if s.srw.Free? {
      NoHolderNoWriter(s);
    }
  }

  lemma AcquireKeepsLock(s: State, i: nat)
    requires Invariant(s) && Enabled(s, Acquire(i))
    ensures LockOk(Next(s, Acquire(i)))
  {
    var s' := Next(s, Acquire(i));
    var x := s.instances[i];
    assert InstanceOk(s, i);
    AcquireAddsHolder(s, i);
    if x.write {
      assert s'.instances[i].locked && s'.instances[i].write;
    } else {
      HoldersHold(s);
      forall j | j in s.instances && s.instances[j].locked ensures s.instances[j].thread != x.thread {
        assert !IsOther(s, i, j);
      }
      if s.srw.Free? {
        NoHolderNoWriter(s);
      }
      forall j | j in s'.instances && s'.instances[j].locked ensures !s'.instances[j].write {
        assert j != i ==> s'.instances[j] == s.instances[j];
      }
    }
  }

  lemma AcquireKeeps(s: State, i: nat)
    requires Invariant(s) && Enabled(s, Acquire(i))
    ensures Invariant(Next(s, Acquire(i)))
  {
    AcquireKeepsLock(s, i);
    var s' := Next(s, Acquire(i));
    forall j | j in s'.instances && s'.instances[j].waiting ensures InstanceOk(s', j) {
      assert InstanceOk(s, j);
      assert s.instances[j].thread != s.instances[i].thread;
      forall k ensures IsOther(s', j, k) <==> IsOther(s, j, k) {}
    }
  }

  lemma NestedUnlockKeeps(s: State, i: nat)
    requires Invariant(s) && Enabled(s, Unlock(i)) && OthersLocked(s, i) && Careful(s, i)
    ensures Invariant(DoUnlock(s, i))
  {
    var s' := DoUnlock(s, i);
    OtherThreadsKeep(s, i, s'.instances[i]);
    NestedChangeKeepsHolders(s, i, s'.instances[i]);
    if WriterExists(s) {
      var k :| k in s.instances && s.instances[k].locked && s.instances[k].write;
      var l := k;
      if k == i {
        l :| l in s.instances && IsOther(s, i, l) && s.instances[l].write;
      }
      assert s'.instances[l] == s.instances[l];
    }
  }

  /** The last instance of a thread has the mode in which the thread holds the system lock. */
  lemma LastHasMode(s: State, i: nat)
    requires LockOk(s) && i in s.instances && s.instances[i].locked && !OthersLocked(s, i)
    ensures s.instances[i].write <==> s.srw.Exclusive?
    ensures s.srw.Exclusive? || s.srw.Shared?
  {
    assert s.instances[i].thread in Holders(s);
    if s.srw.Exclusive? {
      var j :| j in s.instances && s.instances[j].locked && s.instances[j].write;
      SingleHolder(s, s.instances[i].thread, s.instances[j].thread);
      assert j != i ==> IsOther(s, i, j);
    }
  }

  lemma LastUnlockDropsHolder(s: State, i: nat)
    requires Enabled(s, Unlock(i)) && !OthersLocked(s, i)
    ensures Holders(DoUnlock(s, i)) == Holders(s) - {s.instances[i].thread}
    ensures |Holders(DoUnlock(s, i))| == |Holders(s)| - 1
  {
    var s' := DoUnlock(s, i);
    var t := s.instances[i].thread;
    HoldersHold(s);
    HoldersHold(s');
    forall u | u != t && Holds(s, u) ensures Holds(s', u) {
      var j :| j in s.instances && s.instances[j].locked && s.instances[j].thread == u;
      assert s'.instances[j] == s.instances[j];
    }
    forall u | Holds(s', u) ensures u != t && Holds(s, u) {
      var j :| j in s'.instances && s'.instances[j].locked && s'.instances[j].thread == u;
      assert s'.instances[j] == s.instances[j];
      assert !IsOther(s, i, j);
    }
  }

  lemma LastUnlockKeeps(s: State, i: nat)
    requires Invariant(s) && Enabled(s, Unlock(i)) && !OthersLocked(s, i)
    ensures Invariant(DoUnlock(s, i))
  {
    var s' := DoUnlock(s, i);
    OtherThreadsKeep(s, i, s'.instances[i]);
    LastHasMode(s, i);
    LastUnlockDropsHolder(s, i);
    assert WriterExists(s') ==> WriterExists(s) by {
      if WriterExists(s') {
        var j :| j in s'.instances && s'.instances[j].locked && s'.instances[j].write;
        assert s.instances[j] == s'.instances[j];
      }
    }
  }

  /** Every step keeps the lock consistent, provided unlocks are careful. */
  lemma NextKeeps(s: State, a: Action)
    requires Invariant(s) && Enabled(s, a)
    requires a.Unlock? ==> Careful(s, a.i)
    ensures Invariant(Next(s, a))
  {
    match a
    case Create(_, _, _) => CreateKeeps(s, a);
    case Delete(i) => DeleteKeeps(s, i);
    case Lock(i, write) =>
      if OthersLocked(s, i) && (OthersWrite(s, i) || !write) {
        NestedLockKeeps(s, i, write);
      } else {
        WaitingLockKeeps(s, i, write);
      }
    case Acquire(i) => AcquireKeeps(s, i);
    case Unlock(i) =>
      if OthersLocked(s, i) {
        NestedUnlockKeeps(s, i);
      } else {
        LastUnlockKeeps(s, i);
      }
  }

  lemma {:induction false} RunKeeps(states: seq<State>, actions: seq<Action>, k: nat)
    requires IsCarefulRun(states, actions) && k < |states|
    ensures Invariant(states[k])
  {
    if k > 0 {
      RunKeeps(states, actions, k - 1);
      NextKeeps(states[k-1], actions[k-1]);
    }
  }

  // ------------------------------------------------------ what a run means

  /**
    In every careful run, with any number of threads and any nesting: a thread that
    has a write-locked instance keeps all other threads out; the system lock is held
    exactly once per thread with a locked instance; and it is never released in the wrong mode.
  */
  lemma WritersExclude(states: seq<State>, actions: seq<Action>, k: nat, i: nat, j: nat)
    requires IsCarefulRun(states, actions) && k < |states|
    requires i in states[k].instances && j in states[k].instances
    requires states[k].instances[i].locked && states[k].instances[i].write && states[k].instances[j].locked
    ensures states[k].instances[i].thread == states[k].instances[j].thread
    ensures states[k].srw == Exclusive
  {
    RunKeeps(states, actions, k);
    var s := states[k];
    WriterMeansExclusive(s);
    HoldersHold(s);
    assert Holds(s, s.instances[i].thread) && Holds(s, s.instances[j].thread);
    SingleHolder(s, s.instances[i].thread, s.instances[j].thread);
  }

  lemma HeldOncePerThread(states: seq<State>, actions: seq<Action>, k: nat)
    requires IsCarefulRun(states, actions) && k < |states|
    ensures var s := states[k];
            && !s.srw.Corrupt?
            && |Holders(s)| == (if s.srw.Free? then 0 else if s.srw.Exclusive? then 1 else s.srw.count)
            && (s.srw.Exclusive? <==> WriterExists(s))
  {
    RunKeeps(states, actions, k);
    WriterMeansExclusive(states[k]);
  }

  /** In a consistent state an unlock is right exactly when it is careful. */
  lemma UnlockKeepsIffCareful(s: State, i: nat)
    requires Invariant(s) && Enabled(s, Unlock(i))
    ensures Invariant(DoUnlock(s, i)) <==> Careful(s, i)
  {
    if Careful(s, i) {
      NextKeeps(s, Unlock(i));
    } else {
      CarelessBreaks(s, i);
    }
  }

  lemma CarelessBreaks(s: State, i: nat)
    requires Invariant(s) && Enabled(s, Unlock(i)) && !Careful(s, i)
    ensures var s' := DoUnlock(s, i); s'.srw == Exclusive && !WriterExists(s') && !LockOk(s')
  {
    var s' := DoUnlock(s, i);
    WriterMeansExclusive(s);
    var t := s.instances[i].thread;
    HoldersHold(s);
    assert Holds(s, t) by {
      assert s.instances[i].locked;
    }
    forall j | j in s'.instances && s'.instances[j].locked ensures !s'.instances[j].write {
      assert Holds(s, s.instances[j].thread) by {
        assert s.instances[j].locked;
      }
      SingleHolder(s, t, s.instances[j].thread);
      assert j != i ==> IsOther(s, i, j);
    }
  }

  // ------------------------------------------------- what carelessness leads to

  ghost predicate SomeLocked(s: State) {
    exists i :: i in s.instances && s.instances[i].locked
  }

  /** The system lock is held to write though nobody writes any more, or was released in the wrong mode. */
  ghost predicate Damaged(s: State) {
    s.srw.Corrupt? || (s.srw.Exclusive? && !WriterExists(s) && SomeLocked(s))
  }

  lemma DamagedLockStays(s: State, i: nat, write: bool)
    requires Damaged(s) && Enabled(s, Lock(i, write))
    ensures Damaged(DoLock(s, i, write))
  {
    var s' := DoLock(s, i, write);
    if !s.srw.Corrupt? {
      var j :| j in s.instances && s.instances[j].locked;
      assert s'.instances[j].locked;
      assert forall k :: k in s'.instances && k != i ==> s'.instances[k] == s.instances[k];
    }
  }

  lemma DamagedUnlockStays(s: State, i: nat)
    requires Damaged(s) && Enabled(s, Unlock(i))
    ensures Damaged(DoUnlock(s, i))
  {
    var s' := DoUnlock(s, i);
    if !s.srw.Corrupt? && OthersLocked(s, i) {
      var j :| j in s.instances && IsOther(s, i, j);
      assert s'.instances[j].locked;
      assert forall k :: k in s'.instances && k != i ==> s'.instances[k] == s.instances[k];
    }
  }

  /** The damage is never mended. */
  lemma DamageStays(s: State, a: Action)
    requires Damaged(s) && Enabled(s, a)
    ensures Damaged(Next(s, a))
  {
    if a.Lock? {
      DamagedLockStays(s, a.i, a.write);
    } else if a.Unlock? {
      DamagedUnlockStays(s, a.i);
    } else if !s.srw.Corrupt? {
      var s' := Next(s, a);
      var j :| j in s.instances && s.instances[j].locked;
      assert s'.instances[j] == s.instances[j];
      assert forall k :: k in s'.instances && k != a.i ==> s'.instances[k] == s.instances[k];
    }
  }

  ghost predicate CarefulUntil(states: seq<State>, actions: seq<Action>, k: nat)
    requires IsRun(states, actions) && k <= |actions|
  {
    forall j :: 0 <= j < k && actions[j].Unlock? ==> Careful(states[j], actions[j].i)
  }

  lemma {:induction false} ConsistentOrDamaged(states: seq<State>, actions: seq<Action>, k: nat)
    requires IsRun(states, actions) && k <= |actions|
    ensures if CarefulUntil(states, actions, k) then Invariant(states[k]) else Damaged(states[k])
  {
    if k > 0 {
      ConsistentOrDamaged(states, actions, k - 1);
      var s, a := states[k-1], actions[k-1];
      if !CarefulUntil(states, actions, k - 1) {
        DamageStays(s, a);
      } else if a.Unlock? && !Careful(s, a.i) {
        CarelessLeavesDamage(s, a.i);
      } else {
        NextKeeps(s, a);
      }
    }
  }

  lemma CarelessLeavesDamage(s: State, i: nat)
    requires Invariant(s) && Enabled(s, Unlock(i)) && !Careful(s, i)
    ensures Damaged(DoUnlock(s, i))
  {
    CarelessBreaks(s, i);
    var j :| j in s.instances && IsOther(s, i, j);
    assert DoUnlock(s, i).instances[j].locked;
  }

  /**
    In every run at whose end nothing is locked: the system lock was never released in
    the wrong mode exactly when every unlock was careful.
  */
  lemma NeverCorruptIffCareful(states: seq<State>, actions: seq<Action>)
    requires IsRun(states, actions) && !SomeLocked(states[|actions|])
    ensures (forall k :: 0 <= k < |states| ==> !states[k].srw.Corrupt?) <==> IsCarefulRun(states, actions)
  {
    ConsistentOrDamaged(states, actions, |actions|);
    if IsCarefulRun(states, actions) {
      forall k | 0 <= k < |states| ensures !states[k].srw.Corrupt? {
        RunKeeps(states, actions, k);
      }
    } else {
      assert !CarefulUntil(states, actions, |actions|);
      assert states[|actions|].srw.Corrupt?;
    }
  }

  /** A thread that locks to write, then to read, and gives up writing first: state by state. */
  ghost function CarelessState(k: nat): State {
    var w, r := Instance(7, true, true, false, true), Instance(7, true, false, false, false);
    if k == 0 then INIT
    else if k == 1 then State(map[0 := Instance(7, false, true, false, false)], Free)
    else if k == 2 then State(map[0 := Instance(7, false, true, true, false)], Free)
    else if k == 3 then State(map[0 := w], Exclusive)
    else if k == 4 then State(map[0 := w, 1 := Instance(7, false, false, false, false)], Exclusive)
    else if k == 5 then State(map[0 := w, 1 := r], Exclusive)
    else if k == 6 then State(map[0 := w.(locked := false), 1 := r], Exclusive)
    else State(map[0 := w.(locked := false), 1 := r.(locked := false)], Corrupt)
  }

  function CarelessActions(): (actions: seq<Action>)
    ensures |actions| == 7
  {
    [Create(0, 7, true), Lock(0, true), Acquire(0), Create(1, 7, false), Lock(1, false), Unlock(0), Unlock(1)]
  }

  ghost predicate CarelessStep(k: nat)
    requires k < 7
  {
    Enabled(CarelessState(k), CarelessActions()[k]) && Next(CarelessState(k), CarelessActions()[k]) == CarelessState(k + 1)
  }

  lemma CarelessBegins()
    ensures CarelessStep(0) && CarelessStep(1)
  {
  }

  lemma CarelessWrites()
    ensures CarelessStep(2) && CarelessStep(3)
  {
  }

  lemma CarelessReads()
    ensures CarelessStep(4)
  {
    assert IsOther(CarelessState(4), 1, 0);
  }

  lemma CarelessUnlocksOuter()
    ensures CarelessStep(5)
  {
    assert IsOther(CarelessState(5), 0, 1);
  }

  lemma CarelessUnlocksInner()
    ensures CarelessStep(6)
  {
  }

  /** Without that care the last instance releases the system lock in the wrong mode. */
  lemma CarelessUnlockCorrupts()
    ensures exists states: seq<State>, actions: seq<Action> :: IsRun(states, actions) && states[|actions|].srw == Corrupt
  {
    var actions := CarelessActions();
    var states := seq(8, k requires 0 <= k < 8 => CarelessState(k));
    CarelessBegins();
    CarelessWrites();
    CarelessReads();
    CarelessUnlocksOuter();
    CarelessUnlocksInner();
    assert states[0] == INIT && states[7].srw == Corrupt;
    assert forall k :: 0 <= k < 8 ==> states[k] == CarelessState(k);
    hide Enabled, Next, CarelessState, CarelessActions;
    forall k | 0 <= k < 7 ensures Enabled(states[k], actions[k]) && states[k+1] == Next(states[k], actions[k]) {
      assert k in {0, 1, 2, 3, 4, 5, 6};
      assert CarelessStep(k);
    }
    assert IsRun(states, actions);
  }

  // ------------------------------------------------------------ what is granted

  lemma LockedIsHeld(s: State, j: nat)
    requires j in s.instances && s.instances[j].locked
    ensures s.instances[j].thread in Holders(s)
  {
  }

  /** The lock lets a waiting instance in exactly when no locked instance stands against it: readers share, writers do not. */
  lemma AcquireIffCompatible(s: State, i: nat)
    requires Invariant(s) && i in s.instances && s.instances[i].waiting
    ensures Enabled(s, Acquire(i)) <==>
              forall j :: j in s.instances && s.instances[j].locked ==> !s.instances[j].write && !s.instances[i].write
  {
    if Enabled(s, Acquire(i)) {
      forall j | j in s.instances && s.instances[j].locked ensures !s.instances[j].write && !s.instances[i].write {
        LockedIsHeld(s, j);
      }
    } else {
      assert s.srw.Exclusive? || s.srw.Shared?;
      HoldersHold(s);
      var t :| t in Holders(s);
      var j :| j in s.instances && s.instances[j].locked && s.instances[j].thread == t;
    }
  }

  /** A nested request is granted at once, or not at all: only a request to write by a thread that does not write must wait. */
  lemma NestedIsGrantedIff(s: State, i: nat, write: bool)
    requires Enabled(s, Lock(i, write))
    requires exists j :: j in s.instances && j != i && s.instances[j].thread == s.instances[i].thread && s.instances[j].locked
    ensures Next(s, Lock(i, write)).instances[i].locked <==>
              !write || exists j :: j in s.instances && j != i && s.instances[j].thread == s.instances[i].thread
                                    && s.instances[j].locked && s.instances[j].write
  {
    var j :| j in s.instances && j != i && s.instances[j].thread == s.instances[i].thread && s.instances[j].locked;
    assert IsOther(s, i, j);
    if k :| k in s.instances && k != i && s.instances[k].thread == s.instances[i].thread && s.instances[k].locked && s.instances[k].write {
      assert IsOther(s, i, k);
    }
  }

  // ------------------------------------------------------------- upgrades

  /** A thread that reads asks, on another instance, to write. */
  ghost predicate Upgrading(s: State, i: nat) {
    && Invariant(s)
    && i in s.instances && s.instances[i].waiting && s.instances[i].write
    && OthersLocked(s, i)
  }

  /** The next step is of another thread. */
  lemma UpgradeSparesOthers(s: State, a: Action, i: nat, j: nat)
    requires Upgrading(s, i) && Enabled(s, a) && j in s.instances && IsOther(s, i, j)
    ensures a.i != i && a.i != j
  {
    var x := s.instances[i];
    HoldersHold(s);
    assert Holds(s, x.thread) by {
      assert s.instances[j].thread == x.thread;
    }
    assert Blocked(s, x.thread);
    assert s.srw != Free;
    if a.Acquire? {
      assert !Admits(s.srw, true);
      assert InstanceOk(s, a.i);
    }
  }

  /** The request is never granted, whatever the other threads do: the upgrade deadlocks rather than breaking exclusion. */
  lemma UpgradeNeverCompletes(s: State, a: Action, i: nat)
    requires Upgrading(s, i) && Enabled(s, a)
    requires a.Unlock? ==> Careful(s, a.i)
    ensures a != Acquire(i) && Upgrading(Next(s, a), i)
  {
    NextKeeps(s, a);
    var x := s.instances[i];
    var j :| j in s.instances && IsOther(s, i, j);
    UpgradeSparesOthers(s, a, i, j);
    hide Invariant, Enabled;
    var s' := Next(s, a);
    assert s'.instances[i] == x && s'.instances[j] == s.instances[j];
    assert IsOther(s', i, j);
  }

  // ---------------------------------------------------------- stack order

  /** Instance `o` took the system lock for the thread of `i`, still holds it, and writes if `i` does. */
  predicate IsOuter(s: State, i: nat, o: nat)
    requires i in s.instances
  {
    && o in s.instances && s.instances[o].thread == s.instances[i].thread && s.instances[o].locked && s.instances[o].outer
    && (s.instances[i].write ==> s.instances[o].write)
  }

  ghost predicate HasOuter(s: State, i: nat)
    requires i in s.instances
  {
    exists o :: IsOuter(s, i, o)
  }

  ghost predicate StackOk(s: State) {
    forall i {:trigger HasOuter(s, i)} :: i in s.instances && s.instances[i].locked ==> HasOuter(s, i)
  }

  /** While the outer instance stays, every other unlock is careful. */
  lemma StackUnlockIsCareful(s: State, i: nat)
    requires StackOk(s) && Enabled(s, Unlock(i))
    requires s.instances[i].outer ==> !OthersLocked(s, i)
    ensures Careful(s, i)
  {
    assert HasOuter(s, i);
    var o :| IsOuter(s, i, o);
    assert o != i ==> IsOther(s, i, o);
  }

  lemma StackKeeps(s: State, a: Action)
    requires Invariant(s) && StackOk(s) && Enabled(s, a)
    requires a.Unlock? && s.instances[a.i].outer ==> !OthersLocked(s, a.i)
    ensures StackOk(Next(s, a))
  {
    var s' := Next(s, a);
    forall j | j in s'.instances && s'.instances[j].locked ensures HasOuter(s', j) {
      if j == a.i {
        LockedHasOuter(s, a);
      } else {
        OthersKeepOuter(s, a, j);
      }
    }
  }

  /** The instances a step does not touch keep their outer one. */
  lemma OthersKeepOuter(s: State, a: Action, j: nat)
    requires Invariant(s) && StackOk(s) && Enabled(s, a) && j != a.i
    requires a.Unlock? && s.instances[a.i].outer ==> !OthersLocked(s, a.i)
    requires j in s.instances && s.instances[j].locked
    ensures j in Next(s, a).instances && HasOuter(Next(s, a), j)
  {
    assert HasOuter(s, j);
    var o :| IsOuter(s, j, o);
    if a.Unlock? && o == a.i {
      assert IsOther(s, o, j);
    }
    if a.Acquire? {
      assert InstanceOk(s, a.i);
    }
    assert IsOuter(Next(s, a), j, o);
  }

  /** The instance a step locks: it is outer itself, or nested in one that is. */
  lemma LockedHasOuter(s: State, a: Action)
    requires Invariant(s) && StackOk(s) && Enabled(s, a)
    requires var s' := Next(s, a); a.i in s'.instances && s'.instances[a.i].locked
    ensures HasOuter(Next(s, a), a.i)
  {
    var s' := Next(s, a);
    if a.Acquire? {
      assert IsOuter(s', a.i, a.i);
    } else if a.Lock? {
      var j :| j in s.instances && IsOther(s, a.i, j) && (a.write ==> s.instances[j].write);
      assert HasOuter(s, j);
      var o :| IsOuter(s, j, o);
      assert IsOuter(s', a.i, o);
    }
  }

  lemma {:induction false} StackRunKeeps(states: seq<State>, actions: seq<Action>, k: nat)
    requires IsStackRun(states, actions) && k < |states|
    ensures Invariant(states[k]) && StackOk(states[k])
  {
    if k > 0 {
      var s, a := states[k-1], actions[k-1];
      StackRunKeeps(states, actions, k - 1);
      if a.Unlock? {
        StackUnlockIsCareful(s, a.i);
      }
      NextKeeps(s, a);
      StackKeeps(s, a);
    }
  }

  /** Locking and unlocking in stack order is careful, so all of the above holds of it. */
  lemma StackRunIsCareful(states: seq<State>, actions: seq<Action>)
    requires IsStackRun(states, actions)
    ensures IsCarefulRun(states, actions)
  {
    forall k | 0 <= k < |actions| && actions[k].Unlock? ensures Careful(states[k], actions[k].i) {
      StackRunKeeps(states, actions, k);
      StackUnlockIsCareful(states[k], actions[k].i);
    }
  }
}
