/**
  Workers that leave because the pool has more threads than allowed.

  After each message a worker counts the live threads and leaves if they exceed the
  limit it was given with that message.  It counts under the pool lock and leaves
  without it, so others may have counted the same threads meanwhile.  An idle worker
  retires under one hold of the lock, and only above the minimum.
*/
module OverLimitExit {
  datatype Phase = Working | Leaving | Gone

  datatype Action = Count(w: nat, limit: nat) | Leave(w: nat) | Retire(w: nat) | Start

  /**
    `least` is the minimum, `limit` the lowest limit any worker is given; at most
    `together` workers at a time have found the pool too large and are still in it;
    `retiring` says whether idle workers retire.
  */
  datatype Setting = Setting(least: nat, limit: nat, together: nat, retiring: bool)

  function Number(s: seq<Phase>, p: Phase): nat {
    multiset(s)[p]
  }

  /** Workers without an exit flag. */
  function Live(s: seq<Phase>): nat {
    Number(s, Working) + Number(s, Leaving)
  }

  predicate Enabled(c: Setting, s: seq<Phase>, a: Action) {
    match a
    case Count(w, limit) =>
      && w < |s| && s[w] == Working && c.limit <= limit
      && (Live(s) > limit ==> Number(s, Leaving) < c.together)
    case Leave(w) => w < |s| && s[w] == Leaving
    case Retire(w) => c.retiring && w < |s| && s[w] == Working && Live(s) > c.least
    case Start => true
  }

  function Next(c: Setting, s: seq<Phase>, a: Action): seq<Phase>
    requires Enabled(c, s, a)
  {
    match a
    case Count(w, limit) => if Live(s) > limit then s[w := Leaving] else s
    case Leave(w) => s[w := Gone]
    case Retire(w) => s[w := Gone]
    case Start => s + [Working]
  }

  predicate Legal(c: Setting, s: seq<Phase>, run: seq<Action>)
    decreases |run|
  {
    run == [] || (Enabled(c, s, run[0]) && Legal(c, Next(c, s, run[0]), run[1..]))
  }

  function After(c: Setting, s: seq<Phase>, run: seq<Action>): seq<Phase>
    requires Legal(c, s, run)
    decreases |run|
  {
    if run == [] then s else After(c, Next(c, s, run[0]), run[1..])
  }

  /** `n` workers, none of them counting. */
  function Begin(n: nat): seq<Phase> {
    seq(n, _ => Working)
  }

  /** Every run, and so every state of every run, has at least the minimum. */
  ghost predicate KeepsLeast(c: Setting, n: nat) {
    forall run :: Legal(c, Begin(n), run) ==> Live(After(c, Begin(n), run)) >= c.least
  }

  // ---------------------------------------------------------- how low it goes

  function Min(a: int, b: int): int {
    if a < b then a else b
  }

  /** What is left of `n` workers at worst. */
  function Floor(c: Setting, n: nat): int {
    Min(n, (if c.retiring then Min(c.limit + 1, c.least) else c.limit + 1) - c.together)
  }

  /** Those that will stay, not counting the ones about to leave. */
  predicate Above(c: Setting, floor: int, s: seq<Phase>) {
    Number(s, Leaving) <= c.together && Number(s, Working) >= floor
  }

  lemma NumberAfterUpdate(s: seq<Phase>, w: nat, p: Phase)
    requires w < |s| && s[w] != p
    ensures Number(s[w := p], p) == Number(s, p) + 1
    ensures Number(s[w := p], s[w]) == Number(s, s[w]) - 1
    ensures forall q :: q != p && q != s[w] ==> Number(s[w := p], q) == Number(s, q)
  {
    assert multiset(s[w := p]) == multiset(s) - multiset{s[w]} + multiset{p};
  }

  lemma NumberAfterStart(s: seq<Phase>)
    ensures Number(s + [Working], Working) == Number(s, Working) + 1
    ensures Number(s + [Working], Leaving) == Number(s, Leaving)
  {
  }

  lemma StepStaysAbove(c: Setting, n: nat, s: seq<Phase>, a: Action)
    requires Above(c, Floor(c, n), s) && Enabled(c, s, a)
    ensures Above(c, Floor(c, n), Next(c, s, a))
  {
    hide Number;
    match a
    case Count(w, limit) => if Live(s) > limit { NumberAfterUpdate(s, w, Leaving); }
    case Leave(w) => NumberAfterUpdate(s, w, Gone);
    case Retire(w) => NumberAfterUpdate(s, w, Gone);
    case Start => NumberAfterStart(s);
  }

  lemma {:induction false} RunStaysAbove(c: Setting, n: nat, s: seq<Phase>, run: seq<Action>)
    requires Above(c, Floor(c, n), s) && Legal(c, s, run)
    ensures Above(c, Floor(c, n), After(c, s, run))
    decreases |run|
  {
    if run != [] {
      StepStaysAbove(c, n, s, run[0]);
      RunStaysAbove(c, n, Next(c, s, run[0]), run[1..]);
    }
  }

  lemma {:induction false} BeginNumbers(n: nat)
    ensures Number(Begin(n), Working) == n && Number(Begin(n), Leaving) == 0
  {
    if n > 0 {
      BeginNumbers(n - 1);
      assert Begin(n) == Begin(n - 1) + [Working];
    }
  }

  /** However counting, leaving, retiring and starting interleave, and whatever limits the workers are given. */
  lemma NeverBelowFloor(c: Setting, n: nat, run: seq<Action>)
    requires Legal(c, Begin(n), run)
    ensures Live(After(c, Begin(n), run)) >= Floor(c, n)
  {
    BeginNumbers(n);
    RunStaysAbove(c, n, Begin(n), run);
  }

  // ------------------------------------------------------------ worst runs

  ghost predicate Leads(c: Setting, s: seq<Phase>, t: seq<Phase>) {
    exists run :: Legal(c, s, run) && After(c, s, run) == t
  }

  lemma {:induction false} LegalConcat(c: Setting, s: seq<Phase>, a: seq<Action>, b: seq<Action>)
    requires Legal(c, s, a) && Legal(c, After(c, s, a), b)
    ensures Legal(c, s, a + b) && After(c, s, a + b) == After(c, After(c, s, a), b)
    decreases |a|
  {
    hide Enabled, Next;
    if a == [] {
      assert a + b == b;
    } else {
      assert (a + b)[1..] == a[1..] + b;
      LegalConcat(c, Next(c, s, a[0]), a[1..], b);
    }
  }

  lemma OneStep(c: Setting, s: seq<Phase>, a: Action)
    requires Enabled(c, s, a)
    ensures Legal(c, s, [a]) && After(c, s, [a]) == Next(c, s, a)
  {
    hide Enabled, Next;
    assert [a][1..] == [];
    assert Legal(c, Next(c, s, a), []);
  }

  lemma LeadsOn(c: Setting, s: seq<Phase>, t: seq<Phase>, a: Action)
    requires Leads(c, s, t) && Enabled(c, t, a)
    ensures Leads(c, s, Next(c, t, a))
  {
    hide Enabled, Next;
    var run :| Legal(c, s, run) && After(c, s, run) == t;
    OneStep(c, t, a);
    LegalConcat(c, s, run, [a]);
  }

  /** Of `n` workers: `g` gone, `l` about to leave, then `w` working, the rest gone. */
  function Mix(n: nat, g: nat, l: nat, w: nat): (s: seq<Phase>)
    requires g + l + w <= n
    ensures |s| == n
  {
    seq(n, i => if i < g then Gone else if i < g + l then Leaving else if i < g + l + w then Working else Gone)
  }

  lemma {:induction false} MixNumbers(n: nat, g: nat, l: nat, w: nat)
    requires g + l + w <= n
    ensures Number(Mix(n, g, l, w), Working) == w && Number(Mix(n, g, l, w), Leaving) == l
    decreases l + w
  {
    hide Number;
    if l > 0 {
      var s := Mix(n, g + 1, l - 1, w);
      MixNumbers(n, g + 1, l - 1, w);
      assert s[g] == Gone;
      NumberAfterUpdate(s, g, Leaving);
      assert Mix(n, g, l, w) == s[g := Leaving];
    } else if w > 0 {
      var s := Mix(n, g, 0, w - 1);
      MixNumbers(n, g, 0, w - 1);
      assert s[g + w - 1] == Gone;
      NumberAfterUpdate(s, g + w - 1, Working);
      assert Mix(n, g, 0, w) == s[g + w - 1 := Working];
    } else {
      AllGone(Mix(n, g, 0, 0));
    }
  }

  lemma AllGone(s: seq<Phase>)
    requires forall i :: 0 <= i < |s| ==> s[i] == Gone
    ensures Number(s, Working) == 0 && Number(s, Leaving) == 0
  {
    assert Working !in s && Leaving !in s;
  }

  /** One after the other, workers count and leave until `w` are left. */
  lemma {:induction false} LeaveInTurn(c: Setting, n: nat, w: nat)
    requires c.together > 0 && c.limit < w <= n
    ensures Leads(c, Begin(n), Mix(n, 0, 0, w))
    decreases n - w
  {
    if w == n {
      assert Mix(n, 0, 0, n) == Begin(n);
      assert Legal(c, Begin(n), []) && After(c, Begin(n), []) == Begin(n);
    } else {
      LeaveInTurn(c, n, w + 1);
      var s := Mix(n, 0, 0, w + 1);
      MixNumbers(n, 0, 0, w + 1);
      LeadsOn(c, Begin(n), s, Count(w, c.limit));
      LeadsOn(c, Begin(n), s[w := Leaving], Leave(w));
      assert s[w := Leaving][w := Gone] == Mix(n, 0, 0, w);
    }
  }

  /** `l` of the last `limit + 1` workers count before any of them leaves. */
  lemma {:induction false} CountTogether(c: Setting, n: nat, l: nat)
    requires c.together > 0 && l <= c.together && l <= c.limit + 1 <= n
    ensures Leads(c, Begin(n), Mix(n, 0, l, c.limit + 1 - l))
  {
    if l == 0 {
      LeaveInTurn(c, n, c.limit + 1);
    } else {
      CountTogether(c, n, l - 1);
      var s := Mix(n, 0, l - 1, c.limit + 2 - l);
      MixNumbers(n, 0, l - 1, c.limit + 2 - l);
      LeadsOn(c, Begin(n), s, Count(l - 1, c.limit));
      assert s[l - 1 := Leaving] == Mix(n, 0, l, c.limit + 1 - l);
    }
  }

  /** The others retire down to the minimum. */
  lemma {:induction false} RetireRest(c: Setting, n: nat, l: nat, w: nat)
    requires c.together > 0 && c.retiring && l <= c.together && l + w <= c.limit + 1 <= n
    requires l + w < c.limit + 1 ==> c.least <= l + w
    ensures Leads(c, Begin(n), Mix(n, 0, l, w))
    decreases c.limit + 1 - l - w
  {
    if l + w == c.limit + 1 {
      CountTogether(c, n, l);
    } else {
      RetireRest(c, n, l, w + 1);
      var s := Mix(n, 0, l, w + 1);
      MixNumbers(n, 0, l, w + 1);
      LeadsOn(c, Begin(n), s, Retire(l + w));
      assert s[l + w := Gone] == Mix(n, 0, l, w);
    }
  }

  /** Then all that have counted leave. */
  lemma {:induction false} LeaveTogether(c: Setting, n: nat, g: nat, l: nat, w: nat)
    requires g + l + w <= n && Leads(c, Begin(n), Mix(n, 0, g + l, w))
    ensures Leads(c, Begin(n), Mix(n, g, l, w))
    decreases g
  {
    if g > 0 {
      LeaveTogether(c, n, g - 1, l + 1, w);
      var s := Mix(n, g - 1, l + 1, w);
      LeadsOn(c, Begin(n), s, Leave(g - 1));
      assert s[g - 1 := Gone] == Mix(n, g, l, w);
    }
  }

  /** Above the limit, the floor is reached. */
  lemma FloorIsReached(c: Setting, n: nat)
    requires c.together > 0 && c.limit < n
    ensures exists run :: Legal(c, Begin(n), run) && Live(After(c, Begin(n), run)) <= (if Floor(c, n) < 0 then 0 else Floor(c, n))
  {
    var l := Min(c.together, c.limit + 1);
    var w := c.limit + 1 - l;
    CountTogether(c, n, l);
    if c.retiring {
      w := Min(w, if c.least < l then 0 else c.least - l);
      RetireRest(c, n, l, w);
    }
    LeaveTogether(c, n, l, 0, w);
    MixNumbers(n, l, 0, w);
    var run :| Legal(c, Begin(n), run) && After(c, Begin(n), run) == Mix(n, l, 0, w);
    assert Live(After(c, Begin(n), run)) == w;
  }

  /**
    Of more threads than the limit, the minimum is kept in every run exactly when it is
    zero, or idle workers do not retire and the limit leaves room for all that may count
    the same threads: one at a time keeps any minimum up to the limit, two need one more.
  */
  lemma LeastIsKeptIff(c: Setting, n: nat)
    requires c.together > 0 && c.limit < n
    ensures KeepsLeast(c, n) <==> c.least == 0 || (!c.retiring && c.least + c.together <= c.limit + 1)
  {
    if c.least == 0 || (!c.retiring && c.least + c.together <= c.limit + 1) {
      forall run | Legal(c, Begin(n), run) ensures Live(After(c, Begin(n), run)) >= c.least {
        NeverBelowFloor(c, n, run);
      }
    } else {
      FloorIsReached(c, n);
    }
  }
}
