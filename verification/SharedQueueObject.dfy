/**
  The shared queue as an object that updates its list in place, with the loop in
  which a producer waits for room.  Other threads act, in any way, between two holds
  of the lock.  Each hold is recorded, so that whatever happens is a run of
  `SharedQueue` and its theorems hold of the list.
*/
module SharedQueueObject {
  import opened SharedQueue

  class CSharedQueue {
    const config: Config
    var items: seq<nat>
    // Where the producers stand: waiting for room, or past the test and about to push.
    var waiting: set<nat>
    var ready: set<nat>
    ghost var states: seq<State>
    ghost var actions: seq<Action>

    /** The object is where the recorded run has led. */
    ghost predicate Valid()
      reads this
    {
      && IsRun(config, states, actions)
      && Now().queue == items && Now().waiting == waiting && Now().ready == ready
    }

    ghost function Now(): State
      requires |states| == |actions| + 1
      reads this
    {
      states[|actions|]
    }

    constructor (config: Config)
      ensures Valid() && Now() == INIT && this.config == config && actions == []
    {
      this.config := config;
      items, waiting, ready, states, actions := [], {}, {}, [INIT], [];
    }

    /** One hold of the lock: the test of a producer, a push, a pop or a clear. */
    method Hold(a: Action)
      requires Valid() && Enabled(config, Now(), a)
      modifies this
      ensures Valid() && Now() == Next(config, old(Now()), a) && actions == old(actions) + [a]
    {
      ghost var next := Next(config, Now(), a);
      match a {
        case BeginPush(p) =>
          if config.limit > 0 && |items| > config.limit {
            waiting := waiting + {p};
          } else {
            ready := ready + {p};
          }
        case Recheck(p) =>
          if |items| <= config.limit {
            waiting, ready := waiting - {p}, ready + {p};
          }
        case GiveUp(p) =>
          waiting, ready := waiting - {p}, ready + {p};
        case Push(p, x, front) =>
          if front {
            items := [x] + items;
          } else {
            items := items + [x];
          }
          ready := ready - {p};
        case Pop(front) =>
          if front {
            items := items[1..];
          } else {
            items := items[..|items|-1];
          }
        case Clear =>
          items := [];
      }
      states, actions := states + [next], actions + [a];
    }

    /** Any number of holds by other threads than the producer `p`; none of them gives up waiting. */
    method OtherThreads(p: nat)
      requires Valid()
      modifies this
      ensures Valid() && (NoAbort(old(actions)) ==> NoAbort(actions))
      ensures (p in waiting <==> p in old(waiting)) && (p in ready <==> p in old(ready))
    {
      var n: nat :| n >= 0;
      for i := 0 to n
        invariant Valid() && (NoAbort(old(actions)) ==> NoAbort(actions))
        invariant (p in waiting <==> p in old(waiting)) && (p in ready <==> p in old(ready))
      {
        var a: Action := *;
        var s := State(items, waiting, ready, [], []);
        if Enabled(config, s, a) && !a.GiveUp? && !((a.BeginPush? || a.Recheck? || a.Push?) && a.p == p) {
          Hold(a);
        }
      }
    }

    /**
      push_back or push_front by one producer, from the size test to the push.  While
      it waits it looks at the size again and again, `rounds` times at most here, and
      may give up if it has an abort test.
    */
    method PushEntry(p: nat, x: nat, front: bool, hasAbort: bool, rounds: nat) returns (pushed: bool, looks: nat)
      requires Valid() && p < config.producers && p !in waiting && p !in ready
      modifies this
      ensures Valid() && (!hasAbort && NoAbort(old(actions)) ==> NoAbort(actions))
      ensures pushed ==> x in items && actions != [] && actions[|actions|-1] == Push(p, x, front)
                         && items[if front then 0 else |items| - 1] == x
      ensures pushed ==> p !in waiting && p !in ready
      ensures !pushed ==> looks == rounds && p in waiting && |items| > config.limit > 0
      ensures looks <= rounds && (!(old(|items|) > config.limit > 0) ==> pushed && looks == 0)
    {
      var wait := config.limit > 0 && |items| > config.limit;
      Hold(BeginPush(p));
      looks := 0;
      while wait
        invariant Valid() && (!hasAbort && NoAbort(old(actions)) ==> NoAbort(actions))
        invariant if wait then p in waiting && p !in ready && |items| > config.limit > 0 else p in ready && p !in waiting
        invariant looks <= rounds && (!(old(|items|) > config.limit > 0) ==> !wait && looks == 0)
        decreases rounds - looks, wait
      {
        if looks == rounds {
          return false, looks;
        }
        looks := looks + 1;
        OtherThreads(p);
        var abort: bool := *;
        if hasAbort && abort {
          Hold(GiveUp(p));
          wait := false;
        } else {
          wait := |items| > config.limit;
          Hold(Recheck(p));
        }
      }
      OtherThreads(p);
      Hold(Push(p, x, front));
      return true, looks;
    }

    /** The size of the queue, whatever producers and consumers did, if none gave up waiting. */
    method GetCount() returns (n: nat)
      requires Valid() && NoAbort(actions) && config.limit > 0
      ensures n == |items| <= config.limit + config.producers
    {
      NeverAboveLimitPlusProducers(config, states, actions, |actions|);
      n := |items|;
    }

    method PopEntry(front: bool) returns (x: nat)
      requires Valid() && items != []
      modifies this
      ensures Valid() && actions == old(actions) + [Pop(front)]
      ensures if front then old(items) == [x] + items else old(items) == items + [x]
    {
      x := if front then items[0] else items[|items|-1];
      Hold(Pop(front));
    }

    method ClearAll()
      modifies this
      requires Valid()
      ensures Valid() && items == [] && actions == old(actions) + [Clear]
    {
      Hold(Clear);
    }
  }
}
