/**
  The reader/writer lock as the source writes it: a vector of the instances that
  use the lock, scanned on every lock and unlock, and their fields.  Each method is
  proved to be the step of `RwLock` that the exclusion theorems are about.
*/
module RwLockObject {
  import opened RwLock

  lemma EraseMembers(all: seq<nat>, k: nat)
    requires k < |all| && forall i, j :: 0 <= i < j < |all| ==> all[i] != all[j]
    ensures var rest := all[..k] + all[k+1..];
            && (forall x :: x in rest <==> x in all && x != all[k])
            && (forall i, j :: 0 <= i < j < |rest| ==> rest[i] != rest[j])
  {
  }

  class CRWLock {
    var instances: seq<nat>
    var fields: map<nat, Instance>
    var srw: Srw

    function Snapshot(): State
      reads this
    {
      State(fields, srw)
    }

    /** The vector lists exactly the live instances, each once. */
    ghost predicate Valid()
      reads this
    {
      && (forall i :: i in fields <==> i in instances)
      && (forall k, l :: 0 <= k < l < |instances| ==> instances[k] != instances[l])
    }

    constructor ()
      ensures Valid() && Snapshot() == INIT
    {
      instances, fields, srw := [], map[], Free;
    }

    method Register(i: nat, thread: nat, write: bool)
      requires Valid() && Enabled(Snapshot(), Create(i, thread, write))
      modifies this
      ensures Valid() && Snapshot() == Next(old(Snapshot()), Create(i, thread, write))
    {
      instances := instances + [i];
      fields := fields[i := Instance(thread, false, write, false, false)];
    }

    /** Counts the other locked instances of the thread. */
    method CountOthers(i: nat) returns (n: nat)
      requires Valid() && i in fields
      ensures n > 0 <==> OthersLocked(Snapshot(), i)
    {
      n := 0;
      for k := 0 to |instances|
        invariant n > 0 <==> exists l :: 0 <= l < k && IsOther(Snapshot(), i, instances[l])
      {
        var j := instances[k];
        if j != i && fields[j].thread == fields[i].thread && fields[j].locked {
          n := n + 1;
          assert IsOther(Snapshot(), i, instances[k]);
        }
      }
      if OthersLocked(Snapshot(), i) {
        ghost var j :| j in fields && IsOther(Snapshot(), i, j);
        assert j in instances;
      }
    }

    /** Does the thread hold the lock through another instance, and does one of those write? */
    method ScanThread(i: nat) returns (threadLocked: bool, writeLocked: bool)
      requires Valid() && i in fields
      ensures threadLocked == OthersLocked(Snapshot(), i)
      ensures writeLocked == OthersWrite(Snapshot(), i)
    {
      threadLocked, writeLocked := false, false;
      for k := 0 to |instances|
        invariant threadLocked <==> exists l :: 0 <= l < k && IsOther(Snapshot(), i, instances[l])
        invariant writeLocked <==> exists l :: 0 <= l < k && IsOther(Snapshot(), i, instances[l]) && fields[instances[l]].write
      {
        var j := instances[k];
        if j != i && fields[j].thread == fields[i].thread && fields[j].locked {
          threadLocked := true;
          assert IsOther(Snapshot(), i, instances[k]);
          if fields[j].write {
            writeLocked := true;
          }
        }
      }
      if OthersLocked(Snapshot(), i) {
        ghost var j :| j in fields && IsOther(Snapshot(), i, j);
        assert j in instances;
      }
      if OthersWrite(Snapshot(), i) {
        ghost var j :| j in fields && IsOther(Snapshot(), i, j) && fields[j].write;
        assert j in instances;
      }
    }

    /** Gives up this instance, and the system lock with it if no other instance of the thread is locked. */
    method UnlockInstance(i: nat)
      requires Valid() && CanStep(Snapshot(), i)
      modifies `fields, `srw
      ensures Valid()
      ensures Snapshot() == if old(fields)[i].locked then Next(old(Snapshot()), Unlock(i)) else old(Snapshot())
    {
      if fields[i].locked {
        var others := CountOthers(i);
        if others > 0 {
          fields := fields[i := fields[i].(locked := false)];
          return;
        }
        srw := Release(srw, fields[i].write);
        fields := fields[i := fields[i].(locked := false)];
      }
    }

    /** Up to the point where the system lock is asked for: granted at once when nested, else the instance waits. */
    method BeginLock(i: nat, write: bool) returns (granted: bool)
      requires Valid() && CanStep(Snapshot(), i) && !fields[i].locked
      modifies this
      ensures Valid() && Snapshot() == Next(old(Snapshot()), Lock(i, write))
      ensures i in fields && granted == fields[i].locked == !fields[i].waiting
    {
      ghost var before := Snapshot();
      LockResult(before, i, write);
      hide Next, IsOther;
      OwnChangeKeepsOthers(before, i, fields[i].(write := write, waiting := true, outer := false));
      fields := fields[i := fields[i].(write := write, waiting := true, outer := false)];
      var threadLocked, writeLocked := ScanThread(i);
      assert threadLocked == OthersLocked(before, i) && writeLocked == OthersWrite(before, i);
      hide OthersLocked, OthersWrite;
      granted := threadLocked && !(!writeLocked && write);
      if granted {
        fields := fields[i := fields[i].(locked := true, waiting := false)];
      }
      assert fields == before.instances[i := before.instances[i].(write := write, outer := false, locked := granted, waiting := !granted)];
    }

    /** The system lock lets the waiting instance in. */
    method FinishLock(i: nat)
      requires Valid() && Enabled(Snapshot(), Acquire(i))
      modifies this
      ensures Valid() && Snapshot() == Next(old(Snapshot()), Acquire(i))
    {
      srw := Take(srw, fields[i].write);
      fields := fields[i := fields[i].(locked := true, waiting := false, outer := true)];
    }

    /** The destructor: unlock, then leave the vector. */
    method Unregister(i: nat)
      requires Valid() && CanStep(Snapshot(), i)
      modifies this
      ensures Valid()
      ensures Snapshot() == (var s := old(Snapshot());
                             var s' := if s.instances[i].locked then Next(s, Unlock(i)) else s;
                             s'.(instances := s'.instances - {i}))
    {
      UnlockInstance(i);
      var k := 0;
      ghost var all := instances;
      assert instances[0..] == instances;
      while instances[k] != i
        invariant 0 <= k < |instances| && i in instances[k..] && instances == all
        decreases |instances| - k
      {
        k := k + 1;
      }
      EraseMembers(all, k);
      instances := instances[..k] + instances[k+1..];
      fields := fields - {i};
    }
  }
}
