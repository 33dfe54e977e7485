/** What the loops over a message queue do to it, piece by piece. */
module QueueScans {
  import opened Basics
  import opened MessageQueue

  lemma {:induction false} SurvivorsConcat(a: seq<Entry>, b: seq<Entry>, victims: set<nat>)
    ensures Survivors(a + b, victims) == Survivors(a, victims) + Survivors(b, victims)
    ensures Killed(a + b, victims) == Killed(a, victims) + Killed(b, victims)
  {
    hide Spared;
    if a == [] {
      assert a + b == b;
    } else {
      var rest := a[1..] + b;
      assert (a + b)[1..] == rest && (a + b)[0] == a[0];
      SurvivorsConcat(a[1..], b, victims);
      var first := if Spared(a[0], victims) then [a[0]] else [];
      var dead := if Spared(a[0], victims) then [] else [a[0]];
      Regroup(first, Survivors(a[1..], victims), Survivors(b, victims));
      Regroup(dead, Killed(a[1..], victims), Killed(b, victims));
      assert Survivors(a + b, victims) == first + Survivors(rest, victims);
      assert Killed(a + b, victims) == dead + Killed(rest, victims);
    }
  }

  lemma VictimVanishes(a: seq<Entry>, e: Entry, b: seq<Entry>, victims: set<nat>)
    requires !Spared(e, victims)
    ensures Survivors(a + [e] + b, victims) == Survivors(a + b, victims)
    ensures Killed(a + [e] + b, victims) == Killed(a, victims) + [e] + Killed(b, victims)
    ensures Killed(a + b, victims) == Killed(a, victims) + Killed(b, victims)
  {
    SurvivorsConcat(a + [e], b, victims);
    SurvivorsConcat(a, [e], victims);
    SurvivorsConcat(a, b, victims);
    assert Killed([e], victims) == [e] && Survivors([e], victims) == [];
  }

  /** Erasing one victim changes nothing about who survives. */
  lemma RemoveVictim(q: seq<Entry>, k: nat, victims: set<nat>)
    requires k < |q| && !Spared(q[k], victims)
    ensures Survivors(Remove(q, k), victims) == Survivors(q, victims)
    ensures Payloads(Killed(q, victims)) == Payloads(Killed(Remove(q, k), victims)) + multiset{q[k].payload}
  {
    var a, e, b := q[..k], q[k], q[k+1..];
    assert a + [e] + b == q;
    VictimVanishes(a, e, b, victims);
    PayloadsAround(Killed(a, victims), e, Killed(b, victims));
    PayloadsConcat(Killed(a, victims), Killed(b, victims));
  }

  lemma {:induction false} NoVictims(q: seq<Entry>, victims: set<nat>)
    requires forall i :: 0 <= i < |q| ==> Spared(q[i], victims)
    ensures Survivors(q, victims) == q && Killed(q, victims) == []
  {
    if q != [] {
      NoVictims(q[1..], victims);
      assert q == [q[0]] + q[1..];
    }
  }

  /** The entries a transfer leaves behind, in order. */
  function NotDue(q: seq<Entry>, now: nat, flush: bool): seq<Entry> {
    if q == [] then []
    else NotDue(q[..|q|-1], now, flush) + (if IsDue(q[|q|-1], now, flush) then [] else [q[|q|-1]])
  }

  /** The entries a transfer moves, in the order it moves them: the last one first. */
  function DueFromLast(q: seq<Entry>, now: nat, flush: bool): seq<Entry> {
    if q == [] then []
    else (if IsDue(q[|q|-1], now, flush) then [q[|q|-1]] else []) + DueFromLast(q[..|q|-1], now, flush)
  }

  /** Sends messages one after the other, numbered from `id`, with no further delay. */
  function SendAll(q: seq<Entry>, id: nat, due: seq<Entry>): seq<Entry>
    decreases |due|
  {
    if due == [] then q
    else
      var e := due[0];
      SendAll(Insert(q, Entry(id, e.payload, e.priority, e.group, 0, e.notBefore, false)), id + 1, due[1..])
  }

  lemma SendAllNone(q: seq<Entry>, id: nat)
    ensures SendAll(q, id, []) == q
  {
  }

  lemma SendAllFirst(q: seq<Entry>, id: nat, e: Entry, rest: seq<Entry>)
    ensures SendAll(q, id, [e] + rest)
            == SendAll(Insert(q, Entry(id, e.payload, e.priority, e.group, 0, e.notBefore, false)), id + 1, rest)
  {
  }

  lemma {:induction false} NoneDue(q: seq<Entry>, now: nat, flush: bool)
    requires forall i :: 0 <= i < |q| ==> !IsDue(q[i], now, flush)
    ensures NotDue(q, now, flush) == q && DueFromLast(q, now, flush) == []
  {
    if q != [] {
      NoneDue(q[..|q|-1], now, flush);
      assert q == q[..|q|-1] + [q[|q|-1]];
    }
  }

  /** Taking out the last due entry is the first step of the whole transfer. */
  lemma {:induction false} RemoveLastDue(q: seq<Entry>, now: nat, flush: bool, k: nat)
    requires k < |q| && IsDue(q[k], now, flush)
    requires forall i :: k < i < |q| ==> !IsDue(q[i], now, flush)
    ensures NotDue(Remove(q, k), now, flush) == NotDue(q, now, flush)
    ensures DueFromLast(q, now, flush) == [q[k]] + DueFromLast(Remove(q, k), now, flush)
  {
    var n := |q| - 1;
    if k == n {
      assert Remove(q, k) == q[..n];
    } else {
      RemoveLastDue(q[..n], now, flush, k);
      var r := Remove(q, k);
      assert r[..n-1] == Remove(q[..n], k) && r[n-1] == q[n];
    }
  }

  /** A transfer splits the future queue into the due entries, which move, and the others, which stay. */
  lemma {:induction false} DuePartition(q: seq<Entry>, now: nat, flush: bool)
    ensures forall e :: e in NotDue(q, now, flush) <==> e in q && !flush && now < e.due
    ensures forall e :: e in DueFromLast(q, now, flush) <==> e in q && (flush || e.due <= now)
    ensures Payloads(q) == Payloads(NotDue(q, now, flush)) + Payloads(DueFromLast(q, now, flush))
  {
    if q == [] {
      assert PayloadSeq([]) == [];
    } else {
      var rest, e := q[..|q|-1], q[|q|-1];
      DuePartition(rest, now, flush);
      assert q == rest + [e];
      PayloadsConcat(rest, [e]);
      assert PayloadSeq([e]) == [e.payload];
      var stay, go := NotDue(rest, now, flush), DueFromLast(rest, now, flush);
      SumRegroups(multiset{e.payload}, Payloads(stay), Payloads(go));
      if IsDue(e, now, flush) {
        PayloadsConcat([e], go);
        assert NotDue(q, now, flush) == stay && DueFromLast(q, now, flush) == [e] + go;
      } else {
        PayloadsConcat(stay, [e]);
        assert NotDue(q, now, flush) == stay + [e] && DueFromLast(q, now, flush) == go;
      }
    }
  }

  lemma {:induction false} SendAllPayloads(q: seq<Entry>, id: nat, due: seq<Entry>)
    ensures Payloads(SendAll(q, id, due)) == Payloads(q) + Payloads(due)
    decreases |due|
  {
    if due == [] {
      assert PayloadSeq([]) == [];
    } else {
      var e := Entry(id, due[0].payload, due[0].priority, due[0].group, 0, due[0].notBefore, false);
      PayloadsInsert(q, e);
      hide Insert, PayloadSeq;
      SendAllPayloads(Insert(q, e), id + 1, due[1..]);
      assert due == [due[0]] + due[1..];
      PayloadsCons(due[0], due[1..]);
    }
  }

  /** The moved messages join the queue, each behind its own priority, and none is lost. */
  lemma {:induction false} SendAllKeepsSorted(q: seq<Entry>, id: nat, due: seq<Entry>)
    requires Sorted(q) && DistinctIds(q) && IdsBelow(q, id)
    ensures var q' := SendAll(q, id, due);
            Sorted(q') && DistinctIds(q') && IdsBelow(q', id + |due|) && Payloads(q') == Payloads(q) + Payloads(due)
    decreases |due|
  {
    hide Insert, Sorted, DistinctIds, IdsBelow, Payloads;
    SendAllPayloads(q, id, due);
    if due != [] {
      var e := Entry(id, due[0].payload, due[0].priority, due[0].group, 0, due[0].notBefore, false);
      InsertKeepsSorted(q, e);
      SendAllKeepsSorted(Insert(q, e), id + 1, due[1..]);
    }
  }

  /** One more than every id in the queue. */
  ghost function IdBound(q: seq<Entry>): (bound: nat)
    ensures IdsBelow(q, bound)
  {
    if q == [] then 0
    else
      var rest := IdBound(q[..|q|-1]);
      assert forall i :: 0 <= i < |q| - 1 ==> q[i] == q[..|q|-1][i];
      if q[|q|-1].id < rest then rest else q[|q|-1].id + 1
  }
}
