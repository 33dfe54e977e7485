/**
  The priority queue of a thread pool, as a sequence: what inserting, killing and
  erasing do to it, and that each keeps it sorted by priority and first-in-first-out
  within a priority.
*/
module MessageQueue {

  /**
    A queued message.  `id` is the unique, increasing number given to each record.
    `due` is the time the pool checks (0: none); `notBefore` is what the sender
    asked for, and is only observed.
  */
  datatype Entry = Entry(
    id: nat,
    payload: nat,
    priority: nat,
    group: nat,
    due: nat,
    notBefore: nat,
    processing: bool)

  /** `a` is served before `b`: higher priority, or the same priority and earlier arrival. */
  predicate Before(a: Entry, b: Entry) {
    a.priority > b.priority || (a.priority == b.priority && a.id < b.id)
  }

  ghost predicate Sorted(q: seq<Entry>) {
    forall i, j :: 0 <= i < j < |q| ==> Before(q[i], q[j])
  }

  ghost predicate DistinctIds(q: seq<Entry>) {
    forall i, j :: 0 <= i < j < |q| ==> q[i].id != q[j].id
  }

  ghost predicate IdsBelow(q: seq<Entry>, bound: nat) {
    forall i :: 0 <= i < |q| ==> q[i].id < bound
  }

  function PayloadSeq(q: seq<Entry>): seq<nat> {
    seq(|q|, i requires 0 <= i < |q| => q[i].payload)
  }

  /** The messages carried by a queue, whatever their order. */
  function Payloads(q: seq<Entry>): multiset<nat> {
    multiset(PayloadSeq(q))
  }

  // ------------------------------------------------------------- positions

  /** Where a new entry of this priority goes: right after the last one that is not below it. */
  function InsertPoint(q: seq<Entry>, priority: nat): (k: nat)
    ensures k <= |q|
    ensures k > 0 ==> q[k-1].priority >= priority
    ensures forall i :: k <= i < |q| ==> q[i].priority < priority
  {
    if q == [] then 0
    else if q[|q|-1].priority >= priority then |q|
    else InsertPoint(q[..|q|-1], priority)
  }

  function Insert(q: seq<Entry>, e: Entry): seq<Entry> {
    var k := InsertPoint(q, e.priority);
    q[..k] + [e] + q[k..]
  }

  /** The first entry nobody is processing, or the length. */
  function FirstWaiting(q: seq<Entry>): (k: nat)
    ensures k <= |q|
    ensures k < |q| ==> !q[k].processing
    ensures forall i :: 0 <= i < k ==> q[i].processing
  {
    if q == [] then 0
    else if !q[0].processing then 0
    else 1 + FirstWaiting(q[1..])
  }

  /** The position of the record with this id, or the length. */
  function Find(q: seq<Entry>, id: nat): (k: nat)
    ensures k <= |q|
    ensures k < |q| ==> q[k].id == id
    ensures forall i :: 0 <= i < k ==> q[i].id != id
  {
    if q == [] then 0
    else if q[0].id == id then 0
    else 1 + Find(q[1..], id)
  }

  function Remove(q: seq<Entry>, k: nat): seq<Entry>
    requires k < |q|
  {
    q[..k] + q[k+1..]
  }

  /** A kill spares the entries in process and the ones that do not match. */
  predicate Spared(e: Entry, victims: set<nat>) {
    e.processing || e.payload !in victims
  }

  function Survivors(q: seq<Entry>, victims: set<nat>): seq<Entry> {
    if q == [] then []
    else (if Spared(q[0], victims) then [q[0]] else []) + Survivors(q[1..], victims)
  }

  function Killed(q: seq<Entry>, victims: set<nat>): seq<Entry> {
    if q == [] then []
    else (if Spared(q[0], victims) then [] else [q[0]]) + Killed(q[1..], victims)
  }

  /** Due now, or everything when the queue is flushed. */
  predicate IsDue(e: Entry, now: nat, flush: bool) {
    flush || now >= e.due
  }

  /** The last entry that is due, or the length: the search does not stop at the first one. */
  function LastDue(q: seq<Entry>, now: nat, flush: bool): (k: nat)
    ensures k <= |q|
    ensures k < |q| ==> IsDue(q[k], now, flush) && forall i :: k < i < |q| ==> !IsDue(q[i], now, flush)
    ensures k == |q| ==> forall i :: 0 <= i < |q| ==> !IsDue(q[i], now, flush)
  {
    if q == [] then 0
    else if IsDue(q[|q|-1], now, flush) then |q| - 1
    else
      var k := LastDue(q[..|q|-1], now, flush);
      if k == |q| - 1 then |q| else k
  }

  // ---------------------------------------------------------------- payloads

  lemma PayloadsConcat(a: seq<Entry>, b: seq<Entry>)
    ensures Payloads(a + b) == Payloads(a) + Payloads(b)
  {
    assert PayloadSeq(a + b) == PayloadSeq(a) + PayloadSeq(b);
  }

  lemma PayloadsAround(a: seq<Entry>, e: Entry, b: seq<Entry>)
    ensures Payloads(a + [e] + b) == Payloads(a) + multiset{e.payload} + Payloads(b)
  {
    PayloadsConcat(a + [e], b);
    PayloadsConcat(a, [e]);
    assert PayloadSeq([e]) == [e.payload];
  }

  lemma PayloadsSplit(q: seq<Entry>, k: nat)
    requires k < |q|
    ensures Payloads(q) == Payloads(q[..k]) + multiset{q[k].payload} + Payloads(q[k+1..])
  {
    PayloadsAround(q[..k], q[k], q[k+1..]);
    assert q == q[..k] + [q[k]] + q[k+1..];
  }

  lemma PayloadsInsert(q: seq<Entry>, e: Entry)
    ensures Payloads(Insert(q, e)) == Payloads(q) + multiset{e.payload}
  {
    var k := InsertPoint(q, e.priority);
    var a, b := q[..k], q[k..];
    PayloadsAround(a, e, b);
    assert q == a + b;
    PayloadsConcat(a, b);
  }

  lemma PayloadsRemove(q: seq<Entry>, k: nat)
    requires k < |q|
    ensures Payloads(q) == Payloads(Remove(q, k)) + multiset{q[k].payload}
  {
    PayloadsSplit(q, k);
    PayloadsConcat(q[..k], q[k+1..]);
  }

  lemma PayloadsUpdate(q: seq<Entry>, k: nat, e: Entry)
    requires k < |q| && e.payload == q[k].payload
    ensures Payloads(q[k := e]) == Payloads(q)
  {
    PayloadsSplit(q, k);
    PayloadsSplit(q[k := e], k);
    assert q[k := e][..k] == q[..k] && q[k := e][k+1..] == q[k+1..];
  }

  // ------------------------------------------------------------------- order

  lemma SpliceKeepsSorted(a: seq<Entry>, e: Entry, b: seq<Entry>)
    requires Sorted(a + b) && DistinctIds(a + b)
    requires forall i :: 0 <= i < |a| ==> Before(a[i], e) && a[i].id != e.id
    requires forall i :: 0 <= i < |b| ==> Before(e, b[i]) && b[i].id != e.id
    ensures Sorted(a + [e] + b) && DistinctIds(a + [e] + b)
    ensures IdsBelow(a + b, e.id) ==> IdsBelow(a + [e] + b, e.id + 1)
  {
    var q, q', k := a + b, a + [e] + b, |a|;
    forall i | 0 <= i < |q'| ensures IdsBelow(q, e.id) ==> q'[i].id < e.id + 1 {
      if i != k {
        assert q'[i] == q[if i < k then i else i - 1];
      }
    }
    forall i, j | 0 <= i < j < |q'| ensures Before(q'[i], q'[j]) && q'[i].id != q'[j].id {
      if i != k && j != k {
        var i', j' := if i < k then i else i - 1, if j < k then j else j - 1;
        assert q'[i] == q[i'] && q'[j] == q[j'];
      }
    }
  }

  lemma InsertPointIsBetween(q: seq<Entry>, e: Entry)
    requires Sorted(q) && IdsBelow(q, e.id)
    ensures var k := InsertPoint(q, e.priority);
            && (forall i :: 0 <= i < k ==> Before(q[i], e) && q[i].id != e.id)
            && (forall i :: k <= i < |q| ==> Before(e, q[i]) && q[i].id != e.id)
  {
    var k := InsertPoint(q, e.priority);
    forall i | 0 <= i < k ensures Before(q[i], e) {
      assert i < k - 1 ==> Before(q[i], q[k-1]);
    }
  }

  /** A later arrival goes behind its own priority and ahead of all lower ones; the rest keep their order. */
  lemma InsertKeepsSorted(q: seq<Entry>, e: Entry)
    requires Sorted(q) && DistinctIds(q) && IdsBelow(q, e.id)
    ensures var q' := Insert(q, e);
            Sorted(q') && DistinctIds(q') && IdsBelow(q', e.id + 1)
  {
    var k := InsertPoint(q, e.priority);
    var a, b := q[..k], q[k..];
    InsertPointIsBetween(q, e);
    assert a + b == q;
    SpliceKeepsSorted(a, e, b);
  }

  lemma RemoveKeepsSorted(q: seq<Entry>, k: nat)
    requires Sorted(q) && DistinctIds(q) && k < |q|
    ensures Sorted(Remove(q, k)) && DistinctIds(Remove(q, k))
    ensures forall bound :: IdsBelow(q, bound) ==> IdsBelow(Remove(q, k), bound)
  {
  }

  /** A kill removes exactly the matching entries that are not in process. */
  lemma {:induction false} SurvivorsAndKilled(q: seq<Entry>, victims: set<nat>)
    ensures forall e :: e in Survivors(q, victims) <==> e in q && (e.processing || e.payload !in victims)
    ensures forall e :: e in Killed(q, victims) <==> e in q && !e.processing && e.payload in victims
  {
    if q != [] {
      SurvivorsAndKilled(q[1..], victims);
      assert forall e :: e in q <==> e == q[0] || e in q[1..];
    }
  }

  lemma PayloadsCons(e: Entry, rest: seq<Entry>)
    ensures Payloads([e] + rest) == multiset{e.payload} + Payloads(rest)
  {
    PayloadsConcat([e], rest);
    assert PayloadSeq([e]) == [e.payload];
  }

  lemma SumRegroups(m: multiset<nat>, a: multiset<nat>, b: multiset<nat>)
    ensures m + (a + b) == (m + a) + b == a + (m + b)
  {
  }

  lemma {:induction false} PayloadsKill(q: seq<Entry>, victims: set<nat>)
    ensures Payloads(q) == Payloads(Survivors(q, victims)) + Payloads(Killed(q, victims))
  {
    if q == [] {
      assert PayloadSeq([]) == [];
    } else {
      var e, rest := q[0], q[1..];
      var survivors, killed := Survivors(rest, victims), Killed(rest, victims);
      PayloadsKill(rest, victims);
      assert q == [e] + rest;
      PayloadsCons(e, rest);
      SumRegroups(multiset{e.payload}, Payloads(survivors), Payloads(killed));
      if Spared(e, victims) {
        PayloadsCons(e, survivors);
        assert Survivors(q, victims) == [e] + survivors && Killed(q, victims) == killed;
      } else {
        PayloadsCons(e, killed);
        assert Killed(q, victims) == [e] + killed && Survivors(q, victims) == survivors;
      }
    }
  }

  lemma PrependKeepsSorted(e: Entry, rest: seq<Entry>)
    requires Sorted(rest) && DistinctIds(rest)
    requires forall x :: x in rest ==> Before(e, x) && e.id != x.id
    ensures Sorted([e] + rest) && DistinctIds([e] + rest)
  {
  }

  lemma TailIsSorted(q: seq<Entry>)
    requires Sorted(q) && DistinctIds(q) && q != []
    ensures Sorted(q[1..]) && DistinctIds(q[1..])
    ensures forall x :: x in q[1..] ==> Before(q[0], x) && q[0].id != x.id
  {
  }

  /** The entries a kill spares keep their order. */
  lemma {:induction false} SurvivorsKeepSorted(q: seq<Entry>, victims: set<nat>)
    requires Sorted(q) && DistinctIds(q)
    ensures Sorted(Survivors(q, victims)) && DistinctIds(Survivors(q, victims))
  {
    if q != [] {
      TailIsSorted(q);
      SurvivorsKeepSorted(q[1..], victims);
      SurvivorsAndKilled(q[1..], victims);
      if Spared(q[0], victims) {
        PrependKeepsSorted(q[0], Survivors(q[1..], victims));
      }
    }
  }

  /** The first waiting entry is the best one waiting. */
  lemma FirstWaitingIsBest(q: seq<Entry>, i: nat)
    requires Sorted(q) && i < |q| && !q[i].processing
    ensures var k := FirstWaiting(q);
            k < |q| && (i == k || Before(q[k], q[i]))
  {
  }
}
