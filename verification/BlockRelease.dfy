/**
  One shared buffer block, used by several objects in different threads.  The test
  of the count, the copy and the interlocked decrement of Grow are separate steps,
  so that two objects can both find the block shared and then both leave it.  Each
  object is used by one thread at a time.
*/
module BlockRelease {

  // Where an object stands: between operations, leaving after it found the block shared, or at work alone.
  datatype Phase = Holding | Leaving | Alone

  /** The objects that point at the block, and how often the block has been freed. */
  datatype State = State(refs: int, users: map<nat, Phase>, frees: nat)

  datatype Action =
    | Share(h: nat, copy: nat)
    | Test(h: nat)
    | Drop(h: nat)
    | Resume(h: nat)
    | Free(h: nat)

  function Init(h: nat): State {
    State(1, map[h := Holding], 0)
  }

  predicate Enabled(s: State, a: Action) {
    match a
    case Share(h, copy) => h in s.users && s.users[h].Holding? && copy !in s.users
    case Test(h) => h in s.users && s.users[h].Holding?
    case Drop(h) => h in s.users && s.users[h].Leaving?
    case Resume(h) => h in s.users && s.users[h].Alone?
    case Free(h) => h in s.users && s.users[h].Alone?
  }

  function Next(s: State, a: Action): State
    requires Enabled(s, a)
  {
    match a
    case Share(h, copy) => s.(refs := s.refs + 1, users := s.users[copy := Holding])
    case Test(h) => s.(users := s.users[h := if s.refs > 1 then Leaving else Alone])
    case Drop(h) =>
      // the decrement returns the new count; at zero this thread frees the block
      State(s.refs - 1, s.users - {h}, if s.refs - 1 <= 0 then s.frees + 1 else s.frees)
    case Resume(h) => s.(users := s.users[h := Holding])
    case Free(h) => s.(users := s.users - {h}, frees := s.frees + 1)
  }

  ghost predicate IsRun(states: seq<State>, actions: seq<Action>) {
    && |states| == |actions| + 1
    && (exists h :: states[0] == Init(h))
    && forall i :: 0 <= i < |actions| ==> Enabled(states[i], actions[i]) && states[i+1] == Next(states[i], actions[i])
  }

  /** While there are users the count is theirs and nothing is freed; after the last one the block is freed, once. */
  ghost predicate Invariant(s: State) {
    && (s.users != map[] ==> s.frees == 0 && s.refs == |s.users|)
    && (s.users == map[] ==> s.frees == 1)
    && (forall h :: h in s.users && s.users[h].Alone? ==> s.users.Keys == {h})
  }

  lemma OneKey(users: map<nat, Phase>, h: nat)
    requires h in users && |users| == 1
    ensures users.Keys == {h}
  {
    assert |users.Keys - {h}| == |users.Keys| - 1;
  }

  lemma SizeAfter(users: map<nat, Phase>, h: nat, x: Phase)
    ensures |users[h := x]| == |users| + if h in users then 0 else 1
    ensures h in users ==> |users - {h}| == |users| - 1
  {
    assert users[h := x].Keys == users.Keys + {h};
    assert (users - {h}).Keys == users.Keys - {h};
  }

  /** A step that keeps the users and changes the phase of one of them. */
  lemma PhaseKeeps(s: State, h: nat, x: Phase)
    requires Invariant(s) && h in s.users && (x.Alone? ==> s.users.Keys == {h})
    ensures Invariant(s.(users := s.users[h := x]))
  {
    SizeAfter(s.users, h, x);
    assert s.users[h := x].Keys == s.users.Keys;
  }

  lemma ShareKeeps(s: State, h: nat, copy: nat)
    requires Invariant(s) && h in s.users && s.users[h].Holding? && copy !in s.users
    ensures Invariant(s.(refs := s.refs + 1, users := s.users[copy := Holding]))
  {
    SizeAfter(s.users, copy, Holding);
    forall k | k in s.users ensures !s.users[k].Alone? {
      assert h in s.users.Keys;
    }
  }

  lemma DropKeeps(s: State, h: nat)
    requires Invariant(s) && h in s.users && s.users[h].Leaving?
    ensures Invariant(State(s.refs - 1, s.users - {h}, if s.refs - 1 <= 0 then s.frees + 1 else s.frees))
  {
    var users := s.users - {h};
    SizeAfter(s.users, h, Holding);
    forall k | k in users ensures !users[k].Alone? {
      assert h in s.users.Keys;
    }
    assert users == map[] <==> |users| == 0;
  }

  lemma NextKeeps(s: State, a: Action)
    requires Invariant(s) && Enabled(s, a)
    ensures Invariant(Next(s, a))
  {
    match a
    case Share(h, copy) => ShareKeeps(s, h, copy);
    case Test(h) =>
      if s.refs <= 1 {
        OneKey(s.users, h);
      }
      PhaseKeeps(s, h, if s.refs > 1 then Leaving else Alone);
    case Drop(h) => DropKeeps(s, h);
    case Resume(h) => PhaseKeeps(s, h, Holding);
    case Free(h) => assert s.users - {h} == map[] by { assert (s.users - {h}).Keys == {}; }
  }

  lemma {:induction false} RunKeeps(states: seq<State>, actions: seq<Action>, i: nat)
    requires IsRun(states, actions) && i < |states|
    ensures Invariant(states[i])
  {
    if i > 0 {
      RunKeeps(states, actions, i - 1);
      NextKeeps(states[i-1], actions[i-1]);
    }
  }

  /** In every interleaving the block is freed at most once, and exactly when no object points at it any more. */
  lemma FreedExactlyOnce(states: seq<State>, actions: seq<Action>, i: nat)
    requires IsRun(states, actions) && i < |states|
    ensures states[i].frees <= 1
    ensures states[i].frees == 1 <==> states[i].users == map[]
  {
    RunKeeps(states, actions, i);
  }

  /** An object at work in the block, copying from it or changing it, finds it allocated; one that changes it is alone. */
  lemma WorksOnLiveBlock(states: seq<State>, actions: seq<Action>, i: nat, h: nat)
    requires IsRun(states, actions) && i < |states| && h in states[i].users
    ensures states[i].frees == 0
    ensures states[i].users[h].Alone? ==> states[i].users.Keys == {h} && states[i].refs == 1
  {
    RunKeeps(states, actions, i);
    if states[i].users[h].Alone? {
      assert |states[i].users| == |{h}|;
    }
  }

  /** Two objects, both past the test of the count. */
  function BothLeaving(h: nat, k: nat): State {
    State(2, map[h := Leaving, k := Leaving], 0)
  }

  lemma BothCanBeLeaving(h: nat, k: nat)
    requires h != k
    ensures Enabled(Init(h), Share(h, k))
    ensures var s1 := Next(Init(h), Share(h, k)); Enabled(s1, Test(h)) && Enabled(Next(s1, Test(h)), Test(k))
    ensures Next(Next(Next(Init(h), Share(h, k)), Test(h)), Test(k)) == BothLeaving(h, k)
  {
  }

  lemma SecondFrees(h: nat, k: nat)
    requires h != k
    ensures Enabled(BothLeaving(h, k), Drop(h))
    ensures var s := Next(BothLeaving(h, k), Drop(h)); s.frees == 0 && Enabled(s, Drop(k)) && Next(s, Drop(k)).frees == 1
  {
  }

  /** Both objects of a shared block can find it shared: then the decrement reaches zero and the second to leave frees it. */
  lemma DecrementCanReachZero(h: nat, k: nat)
    requires h != k
    ensures exists states: seq<State>, actions: seq<Action> ::
              IsRun(states, actions) && |actions| > 0 && actions[|actions|-1] == Drop(k) && states[|actions|].frees == 1
  {
    BothCanBeLeaving(h, k);
    SecondFrees(h, k);
    var s1 := Next(Init(h), Share(h, k));
    var s2 := Next(s1, Test(h));
    var s4 := Next(BothLeaving(h, k), Drop(h));
    var states := [Init(h), s1, s2, BothLeaving(h, k), s4, Next(s4, Drop(k))];
    var actions := [Share(h, k), Test(h), Test(k), Drop(h), Drop(k)];
    assert IsRun(states, actions);
  }
}
