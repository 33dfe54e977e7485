/**
  The thread pool as a step machine.  Each action is one region the source runs
  under the pool and message-queue locks (or one worker-private step between two
  of them), so a `Run` is any interleaving of senders, workers, kills, transfers
  of delayed messages and thread starts and exits.
*/
module PoolMachine {
  import opened MessageQueue

  const ALONE_BASE: nat := 1000
  const DONT_CARE: nat := 0
  const TICKS_PER_MS: nat := 10000

  /** Where a worker stands: waiting for an event, past the loop guard, in DoProcess, or returned but not yet idle. */
  datatype Job = Waiting | Ready | Running(id: nat) | Finishing

  datatype Worker = Worker(active: bool, exitFlag: bool, inUse: bool, group: nat, job: Job)

  /** One call that moves due messages: `Looking` for one, `Holding` a copy, or having `Sent` it. */
  datatype Transfer =
    | Looking(now: nat, flush: bool)
    | Holding(now: nat, flush: bool, e: Entry)
    | Sent(now: nat, flush: bool, e: Entry)

  /**
    `stopping` says that the pool was told to stop, `flushed` that its threads were then gone.  The
    last five fields only observe: what came in, went out, and was copied or erased by transfers.
  */
  datatype Pool = Pool(
    queue: seq<Entry>,
    future: seq<Entry>,
    workers: seq<Worker>,
    transfers: map<nat, Transfer>,
    nextId: nat,
    now: nat,
    disabled: bool,
    stopping: bool,
    flushed: bool,
    accepted: multiset<nat>,
    finished: multiset<nat>,
    killed: multiset<nat>,
    copied: multiset<nat>,
    erased: multiset<nat>)

  datatype Action =
    | Tick(ticks: nat)
    | Send(payload: nat, priority: nat, group: nat, delay: nat)
    | SendDelayed(payload: nat, priority: nat, group: nat, delay: nat)
    | StartThread
    | Guard(w: nat)
    | Pick(w: nat)
    | Refuse(w: nat)
    | Return(w: nat, processed: bool)
    | Idle(w: nat)
    | Kill(w: nat)
    | Exit(w: nat)
    | Reclaim(w: nat)
    | KillMessages(victims: set<nat>)
    | BeginTransfer(t: nat, flush: bool)
    | FindDue(t: nat)
    | SendDue(t: nat)
    | EraseDue(t: nat)
    | Disable
    | Terminate
    | Enable

  function Init(now: nat): Pool {
    Pool([], [], [], map[], 0, now, false, false, false, multiset{}, multiset{}, multiset{}, multiset{}, multiset{})
  }

  // ------------------------------------------------------------------ steps

  /** May a message of this group run beside the workers now in use? */
  predicate IfInGroup(ws: seq<Worker>, group: nat) {
    forall i :: 0 <= i < |ws| && ws[i].inUse && (group != DONT_CARE || ws[i].group != DONT_CARE) ==>
      group < ALONE_BASE && ws[i].group < ALONE_BASE && ws[i].group == group
  }

  predicate HasJob(s: Pool, w: nat, job: Job) {
    w < |s.workers| && s.workers[w].job == job
  }

  predicate MayStart(s: Pool) {
    var k := FirstWaiting(s.queue);
    && k < |s.queue|
    && IfInGroup(s.workers, s.queue[k].group)
    && (s.queue[k].due == 0 || s.queue[k].due <= s.now)
  }

  predicate IsRunning(s: Pool, w: nat) {
    w < |s.workers| && s.workers[w].job.Running? && Find(s.queue, s.workers[w].job.id) < |s.queue|
  }

  predicate Enabled(s: Pool, a: Action) {
    match a
    case Tick(_) => true
    case Send(_, _, _, _) => true
    case SendDelayed(_, _, _, _) => true
    case StartThread => true
    case Guard(w) => HasJob(s, w, Waiting) && s.workers[w].active && !s.workers[w].exitFlag && !s.disabled
    case Pick(w) => HasJob(s, w, Ready) && MayStart(s)
    case Refuse(w) => HasJob(s, w, Ready) && !MayStart(s)
    case Return(w, _) => IsRunning(s, w)
    case Idle(w) => HasJob(s, w, Finishing)
    case Kill(w) => w < |s.workers|
    case Exit(w) => HasJob(s, w, Waiting) && s.workers[w].active && s.workers[w].exitFlag
    case Reclaim(w) => w < |s.workers| && !s.workers[w].active
    case KillMessages(_) => true
    case BeginTransfer(t, flush) => t !in s.transfers && (flush ==> s.flushed)
    case FindDue(t) => t in s.transfers && s.transfers[t].Looking?
    case SendDue(t) => t in s.transfers && s.transfers[t].Holding?
    case EraseDue(t) => t in s.transfers && s.transfers[t].Sent?
    case Disable => true
    case Enable => true
    case Terminate => s.stopping && forall i :: 0 <= i < |s.workers| ==> !s.workers[i].active
  }

  function SetWorker(s: Pool, w: nat, x: Worker): Pool
    requires w < |s.workers|
  {
    s.(workers := s.workers[w := x])
  }

  function DelayTime(now: nat, delay: nat): nat {
    if delay == 0 then 0 else now + delay * TICKS_PER_MS
  }

  function DoSend(s: Pool, payload: nat, priority: nat, group: nat, due: nat, notBefore: nat): Pool {
    s.(queue := Insert(s.queue, Entry(s.nextId, payload, priority, group, due, notBefore, false)), nextId := s.nextId + 1)
  }

  function FirstInactive(ws: seq<Worker>): (k: nat)
    ensures k <= |ws|
    ensures k < |ws| ==> !ws[k].active
    ensures forall i :: 0 <= i < k ==> ws[i].active
  {
    if ws == [] then 0 else if !ws[0].active then 0 else 1 + FirstInactive(ws[1..])
  }

  /** A stopped thread entry is reused, else one is added. */
  function StartWorker(ws: seq<Worker>): seq<Worker> {
    var k := FirstInactive(ws);
    if k < |ws| then ws[k := Worker(true, false, false, ws[k].group, Waiting)]
    else ws + [Worker(true, false, false, DONT_CARE, Waiting)]
  }

  function DoPick(s: Pool, w: nat): Pool
    requires Enabled(s, Pick(w))
  {
    var k := FirstWaiting(s.queue);
    var e := s.queue[k];
    SetWorker(s, w, s.workers[w].(inUse := true, group := e.group, job := Running(e.id)))
      .(queue := s.queue[k := e.(processing := true)])
  }

  function DoRefuse(s: Pool, w: nat): Pool
    requires Enabled(s, Refuse(w))
  {
    var k := FirstWaiting(s.queue);
    SetWorker(s, w, s.workers[w].(group := if k < |s.queue| then s.queue[k].group else s.workers[w].group, job := Waiting))
  }

  function DoReturn(s: Pool, w: nat, processed: bool): Pool
    requires Enabled(s, Return(w, processed))
  {
    var k := Find(s.queue, s.workers[w].job.id);
    var s' := SetWorker(s, w, s.workers[w].(job := Finishing));
    if processed then s'.(queue := Remove(s.queue, k), finished := s.finished + multiset{s.queue[k].payload})
    else s'.(queue := s.queue[k := s.queue[k].(processing := false)])
  }

  function DoFindDue(s: Pool, t: nat): Pool
    requires Enabled(s, FindDue(t))
  {
    var tr := s.transfers[t];
    var k := LastDue(s.future, tr.now, tr.flush);
    if k == |s.future| then s.(transfers := s.transfers - {t})
    else s.(transfers := s.transfers[t := Holding(tr.now, tr.flush, s.future[k])])
  }

  function DoSendDue(s: Pool, t: nat): Pool
    requires Enabled(s, SendDue(t))
  {
    var tr := s.transfers[t];
    DoSend(s, tr.e.payload, tr.e.priority, tr.e.group, 0, tr.e.notBefore)
      .(transfers := s.transfers[t := Sent(tr.now, tr.flush, tr.e)], copied := s.copied + multiset{tr.e.payload})
  }

  function DoEraseDue(s: Pool, t: nat): Pool
    requires Enabled(s, EraseDue(t))
  {
    var tr := s.transfers[t];
    var s' := s.(transfers := s.transfers[t := Looking(tr.now, tr.flush)]);
    var k := Find(s.future, tr.e.id);
    if k < |s.future| then s'.(future := Remove(s.future, k), erased := s.erased + multiset{s.future[k].payload}) else s'
  }

  function Next(s: Pool, a: Action): Pool
    requires Enabled(s, a)
  {
    match a
    case Tick(ticks) => s.(now := s.now + ticks)
    case Send(payload, priority, group, delay) =>
      var due := DelayTime(s.now, delay);
      DoSend(s, payload, priority, group, due, due).(accepted := s.accepted + multiset{payload})
    case SendDelayed(payload, priority, group, delay) =>
      var due := s.now + delay * TICKS_PER_MS;
      s.(future := s.future + [Entry(s.nextId, payload, priority, group, due, due, false)],
         nextId := s.nextId + 1, accepted := s.accepted + multiset{payload})
    case StartThread => s.(workers := StartWorker(s.workers))
    case Guard(w) => SetWorker(s, w, s.workers[w].(job := Ready))
    case Pick(w) => DoPick(s, w)
    case Refuse(w) => DoRefuse(s, w)
    case Return(w, processed) => DoReturn(s, w, processed)
    case Idle(w) => SetWorker(s, w, s.workers[w].(inUse := false, job := Waiting))
    case Kill(w) => SetWorker(s, w, s.workers[w].(exitFlag := true))
    case Exit(w) => SetWorker(s, w, s.workers[w].(active := false, inUse := false))
    case Reclaim(w) => s.(workers := s.workers[..w] + s.workers[w+1..])
    case KillMessages(victims) =>
      s.(queue := Survivors(s.queue, victims), killed := s.killed + Payloads(Killed(s.queue, victims)))
    case BeginTransfer(t, flush) => s.(transfers := s.transfers[t := Looking(s.now, flush)])
    case FindDue(t) => DoFindDue(s, t)
    case SendDue(t) => DoSendDue(s, t)
    case EraseDue(t) => DoEraseDue(s, t)
    case Disable => s.(disabled := true, stopping := true)
    case Enable => s.(disabled := false)
    case Terminate => s.(workers := [], flushed := true)
  }

  ghost predicate IsRun(states: seq<Pool>, actions: seq<Action>) {
    && |states| == |actions| + 1
    && states[0] == Init(states[0].now)
    && forall i :: 0 <= i < |actions| ==> Enabled(states[i], actions[i]) && states[i+1] == Next(states[i], actions[i])
  }

  /** A transfer begins only when no other one is under way. */
  ghost predicate TransfersApart(states: seq<Pool>, actions: seq<Action>) {
    |states| == |actions| + 1 && forall i :: 0 <= i < |actions| && actions[i].BeginTransfer? ==> states[i].transfers == map[]
  }

  // -------------------------------------------------------------- invariant

  ghost predicate QueueOk(s: Pool) {
    Sorted(s.queue) && DistinctIds(s.queue) && IdsBelow(s.queue, s.nextId)
  }

  /** All workers in use share one group, and a group that runs alone has one worker. */
  ghost predicate GroupOk(ws: seq<Worker>) {
    forall v, w :: 0 <= v < w < |ws| && ws[v].inUse && ws[w].inUse ==> ws[v].group == ws[w].group < ALONE_BASE
  }

  ghost predicate InProcess(q: seq<Entry>, id: nat, group: nat) {
    exists e :: e in q && e.id == id && e.processing && e.group == group
  }

  ghost predicate Owned(ws: seq<Worker>, id: nat) {
    exists w :: 0 <= w < |ws| && ws[w].job == Running(id)
  }

  ghost predicate WorkerOk(q: seq<Entry>, x: Worker) {
    && (x.inUse <==> x.job.Running? || x.job.Finishing?)
    && (!x.active ==> x.job.Waiting?)
    && (x.job.Running? ==> InProcess(q, x.job.id, x.group))
  }

  /** Every entry in process is owned by exactly one worker in use, and stays queued while it runs. */
  ghost predicate OwnOk(q: seq<Entry>, ws: seq<Worker>) {
    && (forall w :: 0 <= w < |ws| ==> WorkerOk(q, ws[w]))
    && (forall e :: e in q && e.processing ==> Owned(ws, e.id))
    && (forall v, w :: 0 <= v < w < |ws| && ws[v].job.Running? ==> ws[v].job != ws[w].job)
  }

  ghost predicate OnTime(s: Pool, e: Entry) {
    e.due == e.notBefore || (e.due == 0 && (e.notBefore <= s.now || s.flushed))
  }

  ghost predicate TransferOk(s: Pool, tr: Transfer) {
    && tr.now <= s.now
    && (tr.flush ==> s.flushed)
    && (!tr.Looking? ==>
          && tr.e.notBefore == tr.e.due
          && (tr.e.due <= tr.now || tr.flush)
          && tr.e.id < s.nextId
          && (forall e :: e in s.future && e.id == tr.e.id ==> e == tr.e))
  }

  ghost predicate FutureOk(s: Pool) {
    && DistinctIds(s.future) && IdsBelow(s.future, s.nextId)
    && (forall e :: e in s.future ==> e.due == e.notBefore)
    && (forall t :: t in s.transfers ==> TransferOk(s, s.transfers[t]))
  }

  ghost predicate TimeOk(s: Pool) {
    forall e :: e in s.queue ==> OnTime(s, e)
  }

  /** Nothing is lost or made up, whatever transfers overlap. */
  ghost predicate CountOk(s: Pool) {
    Payloads(s.future) + Payloads(s.queue) + (s.finished + s.killed + s.erased) == s.accepted + s.copied
  }

  ghost predicate Invariant(s: Pool) {
    QueueOk(s) && GroupOk(s.workers) && OwnOk(s.queue, s.workers) && FutureOk(s) && TimeOk(s) && CountOk(s)
  }

  // ------------------------------------------------------ membership lemmas

  lemma InsertMembers(q: seq<Entry>, e: Entry)
    ensures forall x :: x in Insert(q, e) <==> x in q || x == e
  {
  }

  lemma RemoveMembers(q: seq<Entry>, k: nat)
    requires k < |q| && DistinctIds(q)
    ensures forall x :: x in Remove(q, k) <==> x in q && x.id != q[k].id
  {
  }

  lemma UpdateMembers(q: seq<Entry>, k: nat, e: Entry)
    requires k < |q| && DistinctIds(q) && e.id == q[k].id
    ensures forall x :: x in q[k := e] <==> (x in q && x.id != e.id) || x == e
  {
    var q' := q[k := e];
    forall x | x in q' ensures (x in q && x.id != e.id) || x == e {
      var i :| 0 <= i < |q'| && q'[i] == x;
      if i != k {
        assert q[i] == x;
      }
    }
    forall x | x in q && x.id != e.id ensures x in q' {
      var i :| 0 <= i < |q| && q[i] == x;
      assert q'[i] == x;
    }
    assert q'[k] == e;
  }

  // ---------------------------------------------------- ownership and groups

  /** Only the entries in process matter to who owns what. */
  lemma OwnSameProcessing(q: seq<Entry>, q': seq<Entry>, ws: seq<Worker>)
    requires OwnOk(q, ws)
    requires forall x: Entry :: x.processing ==> (x in q <==> x in q')
    ensures OwnOk(q', ws)
  {
  }

  /** A worker that neither starts nor ends a message. */
  lemma OwnQuietWorker(q: seq<Entry>, ws: seq<Worker>, w: nat, x: Worker)
    requires OwnOk(q, ws) && w < |ws| && WorkerOk(q, x)
    requires x.job == ws[w].job || (!x.job.Running? && !ws[w].job.Running?)
    ensures OwnOk(q, ws[w := x])
  {
    var ws' := ws[w := x];
    forall v | 0 <= v < |ws'| ensures WorkerOk(q, ws'[v]) {
      assert WorkerOk(q, ws[v]);
    }
    forall e | e in q && e.processing ensures Owned(ws', e.id) {
      var v :| 0 <= v < |ws| && ws[v].job == Running(e.id);
      assert ws'[v].job == Running(e.id);
    }
  }

  lemma OwnPick(q: seq<Entry>, ws: seq<Worker>, w: nat, k: nat)
    requires OwnOk(q, ws) && DistinctIds(q) && w < |ws| && k < |q|
    requires ws[w].job == Ready && !q[k].processing
    ensures OwnOk(q[k := q[k].(processing := true)], ws[w := ws[w].(inUse := true, group := q[k].group, job := Running(q[k].id))])
  {
    var e := q[k].(processing := true);
    var q', ws' := q[k := e], ws[w := ws[w].(inUse := true, group := e.group, job := Running(e.id))];
    UpdateMembers(q, k, e);
    assert WorkerOk(q, ws[w]);
    assert ws'[w].job == Running(e.id);
    forall v | 0 <= v < |ws'| ensures WorkerOk(q', ws'[v]) && (v != w ==> ws'[v].job != Running(e.id)) {
      if v != w {
        assert WorkerOk(q, ws[v]);
        if ws[v].job.Running? {
          var x :| x in q && x.id == ws[v].job.id && x.processing && x.group == ws[v].group;
          assert x.id != e.id by {
            var i :| 0 <= i < |q| && q[i] == x;
          }
          assert x in q';
        }
      } else {
        assert e in q';
      }
    }
    forall x | x in q' && x.processing ensures Owned(ws', x.id) {
      if x != e {
        var v :| 0 <= v < |ws| && ws[v].job == Running(x.id);
        assert ws'[v].job == Running(x.id);
      }
    }
  }

  /** The worker that ran a message gives it up: its entry leaves the queue or waits again. */
  lemma OwnReturn(q: seq<Entry>, q': seq<Entry>, ws: seq<Worker>, w: nat, id: nat)
    requires OwnOk(q, ws) && w < |ws| && ws[w].job == Running(id)
    requires forall x: Entry :: x.processing ==> (x in q' <==> x in q && x.id != id)
    ensures OwnOk(q', ws[w := ws[w].(job := Finishing)])
  {
    var ws' := ws[w := ws[w].(job := Finishing)];
    assert WorkerOk(q, ws[w]);
    forall v | 0 <= v < |ws'| ensures WorkerOk(q', ws'[v]) {
      assert WorkerOk(q, ws[v]);
    }
    forall x | x in q' && x.processing ensures Owned(ws', x.id) {
      var v :| 0 <= v < |ws| && ws[v].job == Running(x.id);
      assert v != w;
      assert ws'[v].job == Running(x.id);
    }
  }

  lemma OwnAppend(q: seq<Entry>, ws: seq<Worker>, x: Worker)
    requires OwnOk(q, ws) && WorkerOk(q, x) && !x.job.Running?
    ensures OwnOk(q, ws + [x])
  {
    var ws' := ws + [x];
    forall v | 0 <= v < |ws'| ensures WorkerOk(q, ws'[v]) {
      if v < |ws| {
        assert WorkerOk(q, ws[v]);
      }
    }
    forall e | e in q && e.processing ensures Owned(ws', e.id) {
      var v :| 0 <= v < |ws| && ws[v].job == Running(e.id);
      assert ws'[v].job == Running(e.id);
    }
  }

  lemma OwnDrop(q: seq<Entry>, ws: seq<Worker>, w: nat)
    requires OwnOk(q, ws) && w < |ws| && !ws[w].job.Running?
    ensures OwnOk(q, ws[..w] + ws[w+1..])
  {
    var ws' := ws[..w] + ws[w+1..];
    forall v | 0 <= v < |ws'| ensures ws'[v] == ws[if v < w then v else v + 1] && WorkerOk(q, ws'[v]) {
      assert WorkerOk(q, ws[if v < w then v else v + 1]);
    }
    forall e | e in q && e.processing ensures Owned(ws', e.id) {
      var v :| 0 <= v < |ws| && ws[v].job == Running(e.id);
      assert ws'[if v < w then v else v - 1].job == Running(e.id);
    }
  }

  lemma OwnNobody(q: seq<Entry>, ws: seq<Worker>)
    requires OwnOk(q, ws) && forall w :: 0 <= w < |ws| ==> !ws[w].active
    ensures OwnOk(q, [])
  {
  }

  lemma GroupQuietWorker(ws: seq<Worker>, w: nat, x: Worker)
    requires GroupOk(ws) && w < |ws|
    requires !x.inUse || (ws[w].inUse && x.group == ws[w].group)
    ensures GroupOk(ws[w := x])
  {
  }

  lemma GroupPick(ws: seq<Worker>, w: nat, x: Worker)
    requires GroupOk(ws) && w < |ws| && !ws[w].inUse && IfInGroup(ws, x.group)
    ensures GroupOk(ws[w := x])
  {
  }

  /** A message may run beside the workers in use exactly when one more worker with its group keeps the group rule. */
  lemma GroupRule(ws: seq<Worker>, x: Worker)
    requires GroupOk(ws) && x.inUse
    ensures IfInGroup(ws, x.group) <==> GroupOk(ws + [x])
  {
    var ws' := ws + [x];
    forall i | 0 <= i < |ws| ensures ws'[i] == ws[i] {
    }
    if GroupOk(ws') {
      forall i | 0 <= i < |ws| && ws[i].inUse ensures ws[i].group == x.group < ALONE_BASE {
        assert ws'[i].inUse && ws'[|ws|].inUse;
      }
    }
  }

  /** The same for a worker of the list that takes the message. */
  lemma GroupRuleAt(ws: seq<Worker>, w: nat, x: Worker)
    requires GroupOk(ws) && w < |ws| && !ws[w].inUse && x.inUse
    ensures IfInGroup(ws, x.group) <==> GroupOk(ws[w := x])
  {
    var ws' := ws[w := x];
    if GroupOk(ws') {
      forall i | 0 <= i < |ws| && ws[i].inUse ensures ws[i].group == x.group < ALONE_BASE {
        assert ws'[i] == ws[i] && ws'[w].inUse;
      }
    }
  }

  lemma GroupDrop(ws: seq<Worker>, w: nat)
    requires GroupOk(ws) && w < |ws|
    ensures GroupOk(ws[..w] + ws[w+1..])
  {
  }

  // -------------------------------------------------------- preservation

  /** Records with new ids cannot disturb the transfers under way. */
  lemma TransfersStay(s: Pool, s': Pool)
    requires FutureOk(s) && s'.transfers == s.transfers
    requires s.now <= s'.now && s.nextId <= s'.nextId && (s.flushed ==> s'.flushed)
    requires forall e :: e in s'.future ==> e in s.future || e.id >= s.nextId
    ensures forall t :: t in s'.transfers ==> TransferOk(s', s'.transfers[t])
  {
  }

  /** The same extra message on both sides of the account, wherever it stands. */
  lemma AccountGrows(f: multiset<nat>, q: multiset<nat>, x: multiset<nat>, rest: multiset<nat>, a: multiset<nat>, c: multiset<nat>)
    requires f + q + rest == a + c
    ensures f + (q + x) + rest == (a + x) + c == a + (c + x)
    ensures (f + x) + q + rest == (a + x) + c
  {
    assert f + (q + x) + rest == (f + q + rest) + x;
    assert (f + x) + q + rest == (f + q + rest) + x;
    assert (a + x) + c == (a + c) + x == a + (c + x);
  }

  /** A message that moves from a queue to the ones accounted for. */
  lemma AccountMoves(f: multiset<nat>, q: multiset<nat>, x: multiset<nat>, done: multiset<nat>, killed: multiset<nat>, erased: multiset<nat>)
    ensures f + (q + x) + (done + killed + erased) == f + q + ((done + x) + killed + erased)
    ensures (f + x) + q + (done + killed + erased) == f + q + (done + killed + (erased + x))
    ensures f + (q + x) + (done + killed + erased) == f + q + (done + (killed + x) + erased)
  {
  }

  lemma SendKeepsQueue(s: Pool, payload: nat, priority: nat, group: nat, due: nat, notBefore: nat)
    requires QueueOk(s) && OwnOk(s.queue, s.workers)
    requires forall e :: e in s.queue ==> OnTime(s, e)
    requires due == notBefore || (due == 0 && (notBefore <= s.now || s.flushed))
    ensures var s' := DoSend(s, payload, priority, group, due, notBefore);
            && QueueOk(s') && OwnOk(s'.queue, s'.workers)
            && (forall e :: e in s'.queue ==> OnTime(s', e))
            && Payloads(s'.queue) == Payloads(s.queue) + multiset{payload}
  {
    var e := Entry(s.nextId, payload, priority, group, due, notBefore, false);
    InsertKeepsSorted(s.queue, e);
    InsertMembers(s.queue, e);
    PayloadsInsert(s.queue, e);
    OwnSameProcessing(s.queue, Insert(s.queue, e), s.workers);
  }

  lemma SendKeeps(s: Pool, a: Action)
    requires Invariant(s) && a.Send?
    ensures Invariant(Next(s, a))
  {
    var due := DelayTime(s.now, a.delay);
    SendKeepsQueue(s, a.payload, a.priority, a.group, due, due);
    var s' := Next(s, a);
    TransfersStay(s, s');
    AccountGrows(Payloads(s.future), Payloads(s.queue), multiset{a.payload}, s.finished + s.killed + s.erased, s.accepted, s.copied);
  }

  lemma SendDelayedKeeps(s: Pool, a: Action)
    requires Invariant(s) && a.SendDelayed?
    ensures Invariant(Next(s, a))
  {
    var s' := Next(s, a);
    var e := s'.future[|s.future|];
    PayloadsConcat(s.future, [e]);
    assert PayloadSeq([e]) == [a.payload];
    AccountGrows(Payloads(s.future), Payloads(s.queue), multiset{a.payload}, s.finished + s.killed + s.erased, s.accepted, s.copied);
    assert forall x :: x in s'.future <==> x in s.future || x == e;
    TransfersStay(s, s');
  }

  lemma PickKeeps(s: Pool, w: nat)
    requires Invariant(s) && Enabled(s, Pick(w))
    ensures Invariant(DoPick(s, w))
  {
    PickKeepsQueue(s, w);
    PickKeepsWorkers(s, w);
    TransfersStay(s, DoPick(s, w));
    hide QueueOk, TimeOk, OwnOk, GroupOk, TransferOk;
  }

  lemma PickKeepsWorkers(s: Pool, w: nat)
    requires Invariant(s) && Enabled(s, Pick(w))
    ensures var s' := DoPick(s, w); OwnOk(s'.queue, s'.workers) && GroupOk(s'.workers)
  {
    hide FutureOk, TimeOk, CountOk;
    assert WorkerOk(s.queue, s.workers[w]);
    OwnPick(s.queue, s.workers, w, FirstWaiting(s.queue));
    GroupPick(s.workers, w, DoPick(s, w).workers[w]);
    hide OwnOk, GroupOk;
  }

  lemma PickKeepsQueue(s: Pool, w: nat)
    requires Invariant(s) && Enabled(s, Pick(w))
    ensures var s' := DoPick(s, w); QueueOk(s') && TimeOk(s') && Payloads(s'.queue) == Payloads(s.queue)
  {
    hide FutureOk, OwnOk, GroupOk, CountOk;
    var k := FirstWaiting(s.queue);
    var e := s.queue[k].(processing := true);
    UpdateMembers(s.queue, k, e);
    PayloadsUpdate(s.queue, k, e);
    MarkKeepsSorted(s.queue, k, true, s.nextId);
    hide Sorted, DistinctIds, IdsBelow;
    assert OnTime(s, s.queue[k]);
  }

  lemma MarkKeepsSorted(q: seq<Entry>, k: nat, processing: bool, bound: nat)
    requires k < |q| && Sorted(q) && DistinctIds(q) && IdsBelow(q, bound)
    ensures var q' := q[k := q[k].(processing := processing)]; Sorted(q') && DistinctIds(q') && IdsBelow(q', bound)
  {
  }

  lemma ReturnKeeps(s: Pool, w: nat, processed: bool)
    requires Invariant(s) && Enabled(s, Return(w, processed))
    ensures Invariant(DoReturn(s, w, processed))
  {
    ReturnKeepsQueue(s, w, processed);
    ReturnKeepsWorkers(s, w, processed);
    TransfersStay(s, DoReturn(s, w, processed));
    hide QueueOk, TimeOk, OwnOk, GroupOk, TransferOk, CountOk;
  }

  lemma ReturnKeepsWorkers(s: Pool, w: nat, processed: bool)
    requires Invariant(s) && Enabled(s, Return(w, processed))
    ensures var s' := DoReturn(s, w, processed); OwnOk(s'.queue, s'.workers) && GroupOk(s'.workers)
  {
    hide FutureOk, TimeOk, CountOk;
    var s' := DoReturn(s, w, processed);
    var id := s.workers[w].job.id;
    var k := Find(s.queue, id);
    assert WorkerOk(s.queue, s.workers[w]);
    if processed {
      RemoveMembers(s.queue, k);
    } else {
      UpdateMembers(s.queue, k, s.queue[k].(processing := false));
    }
    OwnReturn(s.queue, s'.queue, s.workers, w, id);
    GroupQuietWorker(s.workers, w, s'.workers[w]);
  }

  lemma ReturnKeepsQueue(s: Pool, w: nat, processed: bool)
    requires Invariant(s) && Enabled(s, Return(w, processed))
    ensures var s' := DoReturn(s, w, processed); QueueOk(s') && TimeOk(s') && CountOk(s')
  {
    hide FutureOk, OwnOk, GroupOk;
    var s' := DoReturn(s, w, processed);
    var k := Find(s.queue, s.workers[w].job.id);
    var e := s.queue[k];
    assert OnTime(s, e);
    if processed {
      RemoveKeepsSorted(s.queue, k);
      RemoveMembers(s.queue, k);
      PayloadsRemove(s.queue, k);
      AccountMoves(Payloads(s.future), Payloads(s'.queue), multiset{e.payload}, s.finished, s.killed, s.erased);
    } else {
      UpdateMembers(s.queue, k, e.(processing := false));
      PayloadsUpdate(s.queue, k, e.(processing := false));
      MarkKeepsSorted(s.queue, k, false, s.nextId);
    }
    hide Sorted, DistinctIds;
  }

  lemma KillMessagesKeeps(s: Pool, victims: set<nat>)
    requires Invariant(s)
    ensures Invariant(Next(s, KillMessages(victims)))
  {
    var s' := Next(s, KillMessages(victims));
    SurvivorsKeepSorted(s.queue, victims);
    SurvivorsAndKilled(s.queue, victims);
    PayloadsKill(s.queue, victims);
    AccountMoves(Payloads(s.future), Payloads(s'.queue), Payloads(Killed(s.queue, victims)), s.finished, s.killed, s.erased);
    OwnSameProcessing(s.queue, s'.queue, s.workers);
    assert IdsBelow(s'.queue, s'.nextId) by {
      forall i | 0 <= i < |s'.queue| ensures s'.queue[i].id < s.nextId {
        assert s'.queue[i] in s.queue;
      }
    }
    TransfersStay(s, s');
  }

  /** Steps of one worker that touch no queue. */
  lemma WorkerStepKeeps(s: Pool, a: Action)
    requires Invariant(s) && Enabled(s, a)
    requires a.Guard? || a.Refuse? || a.Idle? || a.Kill? || a.Exit?
    ensures Invariant(Next(s, a))
  {
    var s' := Next(s, a);
    var w := a.w;
    assert WorkerOk(s.queue, s.workers[w]);
    OwnQuietWorker(s.queue, s.workers, w, s'.workers[w]);
    GroupQuietWorker(s.workers, w, s'.workers[w]);
    TransfersStay(s, s');
  }

  lemma StartThreadKeeps(s: Pool)
    requires Invariant(s)
    ensures Invariant(Next(s, StartThread))
  {
    var s' := Next(s, StartThread);
    var k := FirstInactive(s.workers);
    if k < |s.workers| {
      assert WorkerOk(s.queue, s.workers[k]);
      OwnQuietWorker(s.queue, s.workers, k, s'.workers[k]);
      GroupQuietWorker(s.workers, k, s'.workers[k]);
    } else {
      OwnAppend(s.queue, s.workers, s'.workers[k]);
    }
    TransfersStay(s, s');
  }

  lemma ReclaimKeeps(s: Pool, w: nat)
    requires Invariant(s) && Enabled(s, Reclaim(w))
    ensures Invariant(Next(s, Reclaim(w)))
  {
    var s' := Next(s, Reclaim(w));
    assert WorkerOk(s.queue, s.workers[w]);
    OwnDrop(s.queue, s.workers, w);
    GroupDrop(s.workers, w);
    TransfersStay(s, s');
  }

  /** The queue stays on time while the clock goes on and the pool is stopped or enabled. */
  lemma TimeStays(s: Pool, s': Pool)
    requires TimeOk(s) && s'.queue == s.queue && s.now <= s'.now && (s.flushed ==> s'.flushed)
    ensures TimeOk(s')
  {
    forall e | e in s'.queue ensures OnTime(s', e) {
      assert OnTime(s, e);
    }
  }

  lemma SwitchKeeps(s: Pool, a: Action)
    requires Invariant(s) && Enabled(s, a)
    requires a.Tick? || a.Disable? || a.Enable? || a.Terminate?
    ensures Invariant(Next(s, a))
  {
    var s' := Next(s, a);
    hide OnTime, TransferOk, OwnOk, CountOk, QueueOk;
    TimeStays(s, s');
    TransfersStay(s, s');
    if a.Terminate? {
      OwnNobody(s.queue, s.workers);
    }
    SameCounters(s, s');
    hide TimeOk;
  }

  lemma SameCounters(s: Pool, s': Pool)
    requires s' == s.(now := s'.now, workers := s'.workers, transfers := s'.transfers,
                      disabled := s'.disabled, stopping := s'.stopping, flushed := s'.flushed)
    ensures (QueueOk(s) ==> QueueOk(s')) && (CountOk(s) ==> CountOk(s'))
  {
  }

  /** Steps that only move one transfer on. */
  lemma OneTransferKeeps(s: Pool, t: nat, tr: Transfer)
    requires Invariant(s) && TransferOk(s, tr)
    ensures Invariant(s.(transfers := s.transfers[t := tr])) && Invariant(s.(transfers := s.transfers - {t}))
  {
    hide QueueOk, GroupOk, OwnOk, OnTime, CountOk;
    forall s' | s' == s.(transfers := s.transfers[t := tr]) || s' == s.(transfers := s.transfers - {t})
      ensures FutureOk(s') && TimeOk(s') && (QueueOk(s) ==> QueueOk(s')) && (CountOk(s) ==> CountOk(s'))
    {
      QuietTransfers(s, s', tr);
    }
  }

  lemma QuietTransfers(s: Pool, s': Pool, tr: Transfer)
    requires s' == s.(transfers := s'.transfers) && FutureOk(s) && TimeOk(s) && TransferOk(s, tr)
    requires forall t :: t in s'.transfers ==> s'.transfers[t] == tr || (t in s.transfers && s'.transfers[t] == s.transfers[t])
    ensures FutureOk(s') && TimeOk(s') && (QueueOk(s) ==> QueueOk(s')) && (CountOk(s) ==> CountOk(s'))
  {
    TimeStays(s, s');
    hide TimeOk;
    forall t | t in s'.transfers ensures TransferOk(s', s'.transfers[t]) {
      assert TransferOk(s, s'.transfers[t]);
    }
  }

  /** What a transfer picks is in the future queue, due, and the only record with its id. */
  lemma FindDueIsExact(s: Pool, t: nat)
    requires FutureOk(s) && Enabled(s, FindDue(t))
    ensures var tr := s.transfers[t];
            var k := LastDue(s.future, tr.now, tr.flush);
            k < |s.future| ==>
              && s.future[k] in s.future && IsDue(s.future[k], tr.now, tr.flush)
              && forall e :: e in s.future && e.id == s.future[k].id ==> e == s.future[k]
  {
  }

  lemma TransferStepKeeps(s: Pool, a: Action)
    requires Invariant(s) && Enabled(s, a) && (a.BeginTransfer? || a.FindDue?)
    ensures Invariant(Next(s, a))
  {
    if a.BeginTransfer? {
      assert TransferOk(s, Looking(s.now, a.flush));
      OneTransferKeeps(s, a.t, Looking(s.now, a.flush));
    } else {
      var tr := s.transfers[a.t];
      assert TransferOk(s, tr);
      FindDueIsExact(s, a.t);
      var k := LastDue(s.future, tr.now, tr.flush);
      OneTransferKeeps(s, a.t, if k < |s.future| then Holding(tr.now, tr.flush, s.future[k]) else tr);
    }
    hide Invariant;
  }

  lemma SendDueKeeps(s: Pool, t: nat)
    requires Invariant(s) && Enabled(s, SendDue(t))
    ensures Invariant(DoSendDue(s, t))
  {
    var tr := s.transfers[t];
    assert TransferOk(s, tr);
    SendKeepsQueue(s, tr.e.payload, tr.e.priority, tr.e.group, 0, tr.e.notBefore);
    var s' := DoSendDue(s, t);
    AccountGrows(Payloads(s.future), Payloads(s.queue), multiset{tr.e.payload}, s.finished + s.killed + s.erased, s.accepted, s.copied);
    assert FutureOk(s') by {
      forall u | u in s'.transfers ensures TransferOk(s', s'.transfers[u]) {
        assert TransferOk(s, s.transfers[u]);
      }
    }
  }

  lemma EraseDueKeepsFuture(s: Pool, t: nat)
    requires FutureOk(s) && Enabled(s, EraseDue(t))
    ensures FutureOk(DoEraseDue(s, t))
  {
    var s' := DoEraseDue(s, t);
    var k := Find(s.future, s.transfers[t].e.id);
    if k < |s.future| {
      RemoveMembers(s.future, k);
      RemoveKeepsIds(s.future, k, s.nextId);
    }
    hide DistinctIds, IdsBelow, Find, Remove, TransferOk;
    forall u | u in s'.transfers ensures TransferOk(s', s'.transfers[u]) {
      FewerRecordsKeep(s, s', s.transfers[u], s'.transfers[u]);
    }
  }

  lemma FewerRecordsKeep(s: Pool, s': Pool, tr: Transfer, tr': Transfer)
    requires TransferOk(s, tr) && (tr' == tr || tr' == Looking(tr.now, tr.flush))
    requires s'.now == s.now && s'.nextId == s.nextId && s'.flushed == s.flushed
    requires forall e :: e in s'.future ==> e in s.future
    ensures TransferOk(s', tr')
  {
  }

  lemma EraseDueKeeps(s: Pool, t: nat)
    requires Invariant(s) && Enabled(s, EraseDue(t))
    ensures Invariant(DoEraseDue(s, t))
  {
    EraseDueKeepsFuture(s, t);
    var s' := DoEraseDue(s, t);
    var k := Find(s.future, s.transfers[t].e.id);
    if k < |s.future| {
      PayloadsRemove(s.future, k);
      AccountMoves(Payloads(s'.future), Payloads(s.queue), multiset{s.future[k].payload}, s.finished, s.killed, s.erased);
    }
  }

  lemma RemoveKeepsIds(q: seq<Entry>, k: nat, bound: nat)
    requires k < |q| && DistinctIds(q) && IdsBelow(q, bound)
    ensures DistinctIds(Remove(q, k)) && IdsBelow(Remove(q, k), bound)
  {
  }

  /** Every region of the pool keeps the invariant. */
  lemma NextKeeps(s: Pool, a: Action)
    requires Invariant(s) && Enabled(s, a)
    ensures Invariant(Next(s, a))
  {
    hide Invariant, Enabled, DoPick, DoReturn, DoSendDue, DoEraseDue, DoFindDue, DoRefuse, DoSend;
    match a
    case Send(_, _, _, _) => SendKeeps(s, a);
    case SendDelayed(_, _, _, _) => SendDelayedKeeps(s, a);
    case StartThread => StartThreadKeeps(s);
    case Pick(w) => PickKeeps(s, w);
    case Return(w, processed) => ReturnKeeps(s, w, processed);
    case Reclaim(w) => ReclaimKeeps(s, w);
    case KillMessages(victims) => KillMessagesKeeps(s, victims);
    case SendDue(t) => SendDueKeeps(s, t);
    case EraseDue(t) => EraseDueKeeps(s, t);
    case Guard(_) => WorkerStepKeeps(s, a);
    case Refuse(_) => WorkerStepKeeps(s, a);
    case Idle(_) => WorkerStepKeeps(s, a);
    case Kill(_) => WorkerStepKeeps(s, a);
    case Exit(_) => WorkerStepKeeps(s, a);
    case BeginTransfer(_, _) => TransferStepKeeps(s, a);
    case FindDue(_) => TransferStepKeeps(s, a);
    case Tick(_) => SwitchKeeps(s, a);
    case Disable => SwitchKeeps(s, a);
    case Terminate => SwitchKeeps(s, a);
    case Enable => SwitchKeeps(s, a);
  }

  lemma {:induction false} RunKeeps(states: seq<Pool>, actions: seq<Action>, i: nat)
    requires IsRun(states, actions) && i < |states|
    ensures Invariant(states[i])
  {
    hide Enabled, Next;
    if i == 0 {
      assert PayloadSeq([]) == [];
    } else {
      RunKeeps(states, actions, i - 1);
      NextKeeps(states[i-1], actions[i-1]);
    }
  }

  // ------------------------------------------------------ what a run means

  /**
    Whenever a worker starts a message, no waiting message has a higher priority, or the
    same priority and an earlier arrival.  `PoolTiming` says when it starts before its time.
  */
  lemma StartsBestMessage(states: seq<Pool>, actions: seq<Action>, i: nat)
    requires IsRun(states, actions) && i < |actions| && actions[i].Pick?
    ensures var s := states[i];
            var k := FirstWaiting(s.queue);
            && k < |s.queue|
            && (forall j :: 0 <= j < |s.queue| && j != k && !s.queue[j].processing ==> Before(s.queue[k], s.queue[j]))
            && actions[i].w < |states[i+1].workers|
            && states[i+1].workers[actions[i].w].job == Running(s.queue[k].id)
  {
    RunKeeps(states, actions, i);
    var s := states[i];
    var k := FirstWaiting(s.queue);
    var w := actions[i].w;
    assert s.workers[w].job == Ready;
    forall j | 0 <= j < |s.queue| && j != k && !s.queue[j].processing ensures Before(s.queue[k], s.queue[j]) {
      FirstWaitingIsBest(s.queue, j);
    }
  }

  /** At every moment the workers in use share one group, and a worker whose group runs alone is alone. */
  lemma GroupsNeverMix(states: seq<Pool>, actions: seq<Action>, i: nat, v: nat, w: nat)
    requires IsRun(states, actions) && i < |states|
    requires v < |states[i].workers| && w < |states[i].workers| && v != w
    requires states[i].workers[v].inUse && states[i].workers[w].inUse
    ensures states[i].workers[v].group == states[i].workers[w].group < ALONE_BASE
  {
    RunKeeps(states, actions, i);
  }

  /** At every moment an entry in process has exactly one worker, in use and of the entry's group. */
  lemma InProcessIsOwnedOnce(states: seq<Pool>, actions: seq<Action>, i: nat, e: Entry)
    requires IsRun(states, actions) && i < |states|
    requires e in states[i].queue && e.processing
    ensures exists w :: 0 <= w < |states[i].workers| && states[i].workers[w].job == Running(e.id)
    ensures forall w :: 0 <= w < |states[i].workers| && states[i].workers[w].job == Running(e.id) ==>
              states[i].workers[w].inUse && states[i].workers[w].group == e.group
    ensures forall v, w :: 0 <= v < w < |states[i].workers| && states[i].workers[v].job == Running(e.id) ==>
              states[i].workers[w].job != Running(e.id)
  {
    RunKeeps(states, actions, i);
    var s := states[i];
    assert Owned(s.workers, e.id);
    forall w | 0 <= w < |s.workers| && s.workers[w].job == Running(e.id)
      ensures s.workers[w].inUse && s.workers[w].group == e.group
    {
      assert WorkerOk(s.queue, s.workers[w]);
      var x :| x in s.queue && x.id == e.id && x.processing && x.group == s.workers[w].group;
      SameIdSameEntry(s.queue, x, e);
    }
  }

  lemma SameIdSameEntry(q: seq<Entry>, x: Entry, y: Entry)
    requires DistinctIds(q) && x in q && y in q && x.id == y.id
    ensures x == y
  {
  }

  /** A waiting worker that was asked to exit, or whose pool is disabled, goes for no message. */
  lemma ExitingWorkerStaysIdle(s: Pool, a: Action, w: nat)
    requires Enabled(s, a) && w < |s.workers| && s.workers[w].job == Waiting
    requires s.workers[w].exitFlag || s.disabled
    ensures a != Guard(w) && a != Pick(w)
  {
  }

  /** A worker's message is in the queue for as long as it runs, so the worker can always return. */
  lemma RunningMessageStays(states: seq<Pool>, actions: seq<Action>, i: nat, w: nat)
    requires IsRun(states, actions) && i < |states|
    requires w < |states[i].workers| && states[i].workers[w].job.Running?
    ensures IsRunning(states[i], w) && states[i].queue[Find(states[i].queue, states[i].workers[w].job.id)].processing
  {
    RunKeeps(states, actions, i);
    var s := states[i];
    assert WorkerOk(s.queue, s.workers[w]);
    var e :| e in s.queue && e.id == s.workers[w].job.id && e.processing;
    var j :| 0 <= j < |s.queue| && s.queue[j] == e;
    var k := Find(s.queue, e.id);
    assert k == j;
  }

  /** What a sender asks for is what is queued; what a transfer forwards is its record, with no further delay. */
  lemma SentAsAsked(s: Pool, a: Action)
    requires Enabled(s, a) && (a.Send? || a.SendDelayed? || a.SendDue?)
    ensures var s' := Next(s, a);
            && s'.nextId == s.nextId + 1 && s'.workers == s.workers && s'.now == s.now
            && (a.Send? ==>
                  var due := if a.delay == 0 then 0 else s.now + a.delay * 10000;
                  && s'.future == s.future && |s'.queue| == |s.queue| + 1
                  && forall e :: e in s'.queue <==>
                       (e in s.queue || e == Entry(id := s.nextId, payload := a.payload, priority := a.priority, group := a.group,
                                                   due := due, notBefore := due, processing := false)))
            && (a.SendDelayed? ==>
                  var due := s.now + a.delay * 10000;
                  && s'.queue == s.queue
                  && s'.future == s.future + [Entry(id := s.nextId, payload := a.payload, priority := a.priority, group := a.group,
                                                    due := due, notBefore := due, processing := false)])
            && (a.SendDue? ==>
                  var r := s.transfers[a.t].e;
                  && s'.future == s.future && |s'.queue| == |s.queue| + 1
                  && forall e :: e in s'.queue <==>
                       (e in s.queue || e == Entry(id := s.nextId, payload := r.payload, priority := r.priority, group := r.group,
                                                   due := 0, notBefore := r.notBefore, processing := false)))
  {
    if a.Send? {
      var due := DelayTime(s.now, a.delay);
      InsertMembers(s.queue, Entry(s.nextId, a.payload, a.priority, a.group, due, due, false));
    } else if a.SendDue? {
      var r := s.transfers[a.t].e;
      InsertMembers(s.queue, Entry(s.nextId, r.payload, r.priority, r.group, 0, r.notBefore, false));
    }
  }

  /** A processed entry leaves the queue, an unprocessed one waits again at its place; nothing else changes. */
  ghost predicate GivesUp(q: seq<Entry>, id: nat, processed: bool, q': seq<Entry>) {
    if processed then |q'| == |q| - 1 && forall e :: e in q' <==> e in q && e.id != id
    else |q'| == |q| && forall i :: 0 <= i < |q| ==> q'[i] == q[i].(processing := q[i].processing && q[i].id != id)
  }

  lemma GivenUp(q: seq<Entry>, k: nat, processed: bool)
    requires k < |q| && DistinctIds(q)
    ensures GivesUp(q, q[k].id, processed, if processed then Remove(q, k) else q[k := q[k].(processing := false)])
  {
    RemoveMembers(q, k);
  }

  lemma ReturnedAsSaid(s: Pool, w: nat, processed: bool)
    requires QueueOk(s) && Enabled(s, Return(w, processed))
    ensures GivesUp(s.queue, s.workers[w].job.id, processed, Next(s, Return(w, processed)).queue)
  {
    GivenUp(s.queue, Find(s.queue, s.workers[w].job.id), processed);
  }

  // ----------------------------------------------------------- conservation

  /** Future, queued (waiting or in process), finished or killed. */
  ghost function Accounted(s: Pool): multiset<nat> {
    Payloads(s.future) + Payloads(s.queue) + (s.finished + s.killed)
  }

  /** With at most one transfer, only a message between being sent and being erased is there twice. */
  ghost predicate OneTransfer(s: Pool) {
    && (forall t, u :: t in s.transfers && u in s.transfers ==> t == u)
    && (forall t :: t in s.transfers && !s.transfers[t].Looking? ==> s.transfers[t].e in s.future)
    && (forall t :: t in s.transfers && s.transfers[t].Sent? ==> s.copied == s.erased + multiset{s.transfers[t].e.payload})
    && ((forall t :: t in s.transfers ==> !s.transfers[t].Sent?) ==> s.copied == s.erased)
  }

  lemma FindDueKeepsOne(s: Pool, t: nat)
    requires Invariant(s) && OneTransfer(s) && Enabled(s, FindDue(t))
    ensures OneTransfer(DoFindDue(s, t))
  {
    var s' := DoFindDue(s, t);
    assert forall u :: u in s'.transfers ==> u == t;
    assert s.copied == s.erased;
  }

  lemma SendDueKeepsOne(s: Pool, t: nat)
    requires Invariant(s) && OneTransfer(s) && Enabled(s, SendDue(t))
    ensures OneTransfer(DoSendDue(s, t))
  {
    var s' := DoSendDue(s, t);
    assert forall u :: u in s'.transfers ==> u == t;
    assert s'.transfers[t].Sent?;
    assert s.copied == s.erased;
  }

  lemma EraseDueKeepsOne(s: Pool, t: nat)
    requires Invariant(s) && OneTransfer(s) && Enabled(s, EraseDue(t))
    ensures OneTransfer(DoEraseDue(s, t))
  {
    var s' := DoEraseDue(s, t);
    var e := s.transfers[t].e;
    var k := Find(s.future, e.id);
    assert e in s.future;
    var j :| 0 <= j < |s.future| && s.future[j] == e;
    assert k == j;
    assert forall u :: u in s'.transfers ==> u == t;
    assert s'.erased == s.copied;
  }

  predicate ByWorker(a: Action) {
    a.StartThread? || a.Guard? || a.Pick? || a.Refuse? || a.Return? || a.Idle? || a.Kill? || a.Exit? || a.Reclaim?
  }

  /** Workers change the thread list, the message queue and what is finished. */
  lemma WorkersLeaveRest(s: Pool, a: Action)
    requires Enabled(s, a) && ByWorker(a)
    ensures var s' := Next(s, a); s' == s.(queue := s'.queue, workers := s'.workers, finished := s'.finished)
  {
    hide Enabled, StartWorker;
    match a
    case StartThread =>
    case Guard(_) =>
    case Pick(_) =>
    case Refuse(_) =>
    case Return(_, _) =>
    case Idle(_) =>
    case Kill(_) =>
    case Exit(_) =>
    case Reclaim(_) =>
  }

  lemma OthersLeaveTransfers(s: Pool, a: Action)
    requires Enabled(s, a) && !a.FindDue? && !a.SendDue? && !a.EraseDue?
    ensures var s' := Next(s, a);
            && s.future <= s'.future && s'.copied == s.copied && s'.erased == s.erased
            && s'.transfers == if a.BeginTransfer? then s.transfers[a.t := Looking(s.now, a.flush)] else s.transfers
  {
    hide Enabled, Survivors, Killed, Insert;
    if ByWorker(a) {
      WorkersLeaveRest(s, a);
      hide Next;
    }
  }

  lemma FutureGrowsKeepsOne(s: Pool, s': Pool)
    requires OneTransfer(s)
    requires s.future <= s'.future && s'.copied == s.copied && s'.erased == s.erased
    requires s'.transfers == s.transfers || (s.transfers == map[] && exists t, n, f :: s'.transfers == map[t := Looking(n, f)])
    ensures OneTransfer(s')
  {
  }

  lemma OthersKeepOne(s: Pool, a: Action)
    requires OneTransfer(s) && Enabled(s, a) && !a.FindDue? && !a.SendDue? && !a.EraseDue?
    requires a.BeginTransfer? ==> s.transfers == map[]
    ensures OneTransfer(Next(s, a))
  {
    OthersLeaveTransfers(s, a);
    if a.BeginTransfer? {
      assert Next(s, a).transfers == map[a.t := Looking(s.now, a.flush)];
    }
    FutureGrowsKeepsOne(s, Next(s, a));
  }

  lemma NextKeepsOneTransfer(s: Pool, a: Action)
    requires Invariant(s) && OneTransfer(s) && Enabled(s, a)
    requires a.BeginTransfer? ==> s.transfers == map[]
    ensures OneTransfer(Next(s, a))
  {
    if a.FindDue? {
      FindDueKeepsOne(s, a.t);
    } else if a.SendDue? {
      SendDueKeepsOne(s, a.t);
    } else if a.EraseDue? {
      EraseDueKeepsOne(s, a.t);
    } else {
      OthersKeepOne(s, a);
    }
  }

  lemma {:induction false} RunKeepsOneTransfer(states: seq<Pool>, actions: seq<Action>, i: nat)
    requires IsRun(states, actions) && TransfersApart(states, actions) && i < |states|
    ensures OneTransfer(states[i])
  {
    if i > 0 {
      RunKeepsOneTransfer(states, actions, i - 1);
      RunKeeps(states, actions, i - 1);
      NextKeepsOneTransfer(states[i-1], actions[i-1]);
    }
  }

  /** The counters of a run balance; `PoolConservation` says which steps unbalance them. */
  lemma ConservedIffCopiesErased(states: seq<Pool>, actions: seq<Action>, i: nat)
    requires IsRun(states, actions) && i < |states|
    ensures Accounted(states[i]) == states[i].accepted <==> states[i].copied == states[i].erased
  {
    RunKeeps(states, actions, i);
    var s := states[i];
    assert Accounted(s) + s.erased == s.accepted + s.copied by {
      assert Payloads(s.future) + Payloads(s.queue) + (s.finished + s.killed + s.erased) == Accounted(s) + s.erased;
    }
    Cancel(Accounted(s), s.erased, s.accepted, s.copied);
  }

  lemma Cancel(a: multiset<nat>, x: multiset<nat>, b: multiset<nat>, y: multiset<nat>)
    requires a + x == b + y
    ensures a == b <==> x == y
  {
    forall p: nat ensures a[p] + x[p] == b[p] + y[p] {
      assert (a + x)[p] == (b + y)[p];
    }
    if a == b {
      forall p: nat ensures x[p] == y[p] {
        assert a[p] == b[p];
      }
    }
    if x == y {
      forall p: nat ensures a[p] == b[p] {
        assert x[p] == y[p];
      }
    }
  }

  /** When transfers do not overlap, every message is accounted for exactly once whenever none is under way. */
  lemma MessagesAreConserved(states: seq<Pool>, actions: seq<Action>, i: nat)
    requires IsRun(states, actions) && TransfersApart(states, actions)
    requires i < |states| && states[i].transfers == map[]
    ensures Accounted(states[i]) == states[i].accepted
  {
    RunKeepsOneTransfer(states, actions, i);
    ConservedIffCopiesErased(states, actions, i);
  }

  /** Two overlapping transfers of one delayed message, state by state. */
  ghost function OverlapState(now: nat, payload: nat, i: nat): Pool {
    var e := Entry(0, payload, 0, 0, now, now, false);
    var one := [Entry(1, payload, 0, 0, 0, now, false)];
    var two := one + [Entry(2, payload, 0, 0, 0, now, false)];
    var look, hold, sent := Looking(now, false), Holding(now, false, e), Sent(now, false, e);
    var m := multiset{payload};
    if i == 0 then Init(now)
    else
      var future := if i <= 7 then [e] else [];
      var queue := if i <= 5 then [] else if i == 6 then one else two;
      var transfers :=
        if i == 1 then map[]
        else if i == 2 then map[0 := look]
        else if i == 3 then map[0 := look, 1 := look]
        else if i == 4 then map[0 := hold, 1 := look]
        else if i == 5 then map[0 := hold, 1 := hold]
        else if i == 6 then map[0 := sent, 1 := hold]
        else if i == 7 then map[0 := sent, 1 := sent]
        else if i == 8 then map[0 := look, 1 := sent]
        else if i == 9 then map[0 := look, 1 := look]
        else if i == 10 then map[1 := look]
        else map[];
      Pool(queue, future, [], transfers, if i <= 5 then 1 else if i == 6 then 2 else 3, now, false, false, false,
           m, multiset{}, multiset{},
           if i <= 5 then multiset{} else if i == 6 then m else m + m,
           if i <= 7 then multiset{} else m)
  }

  function OverlapActions(payload: nat): (actions: seq<Action>)
    ensures |actions| == 11
  {
    [SendDelayed(payload, 0, 0, 0), BeginTransfer(0, false), BeginTransfer(1, false),
     FindDue(0), FindDue(1), SendDue(0), SendDue(1), EraseDue(0), EraseDue(1), FindDue(0), FindDue(1)]
  }

  ghost predicate OverlapStep(now: nat, payload: nat, i: nat)
    requires i < 11
  {
    var s, a := OverlapState(now, payload, i), OverlapActions(payload)[i];
    Enabled(s, a) && Next(s, a) == OverlapState(now, payload, i + 1)
  }

  /** What the steps of a transfer do when there is one delayed message or none. */
  lemma FindOnly(s: Pool, t: nat, n: nat, flush: bool, e: Entry)
    requires t in s.transfers && s.transfers[t] == Looking(n, flush) && s.future == [e] && (e.due <= n || flush)
    ensures Enabled(s, FindDue(t)) && Next(s, FindDue(t)) == s.(transfers := s.transfers[t := Holding(n, flush, e)])
  {
  }

  lemma FindNothing(s: Pool, t: nat)
    requires t in s.transfers && s.transfers[t].Looking? && s.future == []
    ensures Enabled(s, FindDue(t)) && Next(s, FindDue(t)) == s.(transfers := s.transfers - {t})
  {
  }

  lemma SendLast(s: Pool, t: nat, n: nat, flush: bool, e: Entry)
    requires t in s.transfers && s.transfers[t] == Holding(n, flush, e)
    requires forall x :: x in s.queue ==> x.priority == e.priority
    ensures Enabled(s, SendDue(t))
    ensures Next(s, SendDue(t))
            == s.(queue := s.queue + [Entry(s.nextId, e.payload, e.priority, e.group, 0, e.notBefore, false)],
                  nextId := s.nextId + 1, transfers := s.transfers[t := Sent(n, flush, e)], copied := s.copied + multiset{e.payload})
  {
    assert InsertPoint(s.queue, e.priority) == |s.queue|;
  }

  lemma EraseOnly(s: Pool, t: nat, n: nat, flush: bool, e: Entry)
    requires t in s.transfers && s.transfers[t] == Sent(n, flush, e) && s.future == [e]
    ensures Enabled(s, EraseDue(t))
    ensures Next(s, EraseDue(t))
            == s.(future := [], transfers := s.transfers[t := Looking(n, flush)], erased := s.erased + multiset{e.payload})
  {
    assert Find(s.future, e.id) == 0;
    assert Remove(s.future, 0) == [];
  }

  lemma EraseNothing(s: Pool, t: nat, n: nat, e: Entry)
    requires t in s.transfers && s.transfers[t] == Sent(n, false, e) && s.future == []
    ensures Enabled(s, EraseDue(t)) && Next(s, EraseDue(t)) == s.(transfers := s.transfers[t := Looking(n, false)])
  {
  }

  lemma OverlapBegins(now: nat, payload: nat)
    ensures OverlapStep(now, payload, 0) && OverlapStep(now, payload, 1) && OverlapStep(now, payload, 2)
  {
  }

  lemma OverlapFinds(now: nat, payload: nat)
    ensures OverlapStep(now, payload, 3) && OverlapStep(now, payload, 4)
  {
    hide Enabled, Next;
    var e := Entry(0, payload, 0, 0, now, now, false);
    FindOnly(OverlapState(now, payload, 3), 0, now, false, e);
    FindOnly(OverlapState(now, payload, 4), 1, now, false, e);
  }

  lemma OverlapSends(now: nat, payload: nat)
    ensures OverlapStep(now, payload, 5) && OverlapStep(now, payload, 6)
  {
    hide Enabled, Next;
    var e := Entry(0, payload, 0, 0, now, now, false);
    SendLast(OverlapState(now, payload, 5), 0, now, false, e);
    SendLast(OverlapState(now, payload, 6), 1, now, false, e);
  }

  lemma OverlapErases(now: nat, payload: nat)
    ensures OverlapStep(now, payload, 7) && OverlapStep(now, payload, 8)
  {
    hide Enabled, Next;
    var e := Entry(0, payload, 0, 0, now, now, false);
    EraseOnly(OverlapState(now, payload, 7), 0, now, false, e);
    EraseNothing(OverlapState(now, payload, 8), 1, now, e);
  }

  lemma OverlapEnds(now: nat, payload: nat)
    ensures OverlapStep(now, payload, 9) && OverlapStep(now, payload, 10)
  {
    hide Enabled, Next;
    var look := Looking(now, false);
    FindNothing(OverlapState(now, payload, 9), 0);
    FindNothing(OverlapState(now, payload, 10), 1);
    assert map[0 := look, 1 := look] - {0} == map[1 := look];
    assert map[1 := look] - {1} == map[];
  }

  lemma OverlapSteps(now: nat, payload: nat, i: nat)
    requires i < 11
    ensures OverlapStep(now, payload, i)
  {
    OverlapBegins(now, payload);
    OverlapFinds(now, payload);
    OverlapSends(now, payload);
    OverlapErases(now, payload);
    OverlapEnds(now, payload);
    hide OverlapStep;
    assert i in {0, 1, 2, 3, 4, 5, 6, 7, 8, 9, 10};
  }

  lemma OverlapIsRun(now: nat, payload: nat)
    ensures IsRun(seq(12, i requires 0 <= i < 12 => OverlapState(now, payload, i)), OverlapActions(payload))
  {
    var actions := OverlapActions(payload);
    var states := seq(12, i requires 0 <= i < 12 => OverlapState(now, payload, i));
    assert states[0] == Init(now);
    hide Enabled, Next, OverlapState;
    forall i | 0 <= i < |actions| ensures Enabled(states[i], actions[i]) && states[i+1] == Next(states[i], actions[i]) {
      OverlapSteps(now, payload, i);
    }
  }

  lemma OverlapResult(now: nat, payload: nat)
    ensures Accounted(OverlapState(now, payload, 11)) == multiset{payload, payload}
  {
    var last := OverlapState(now, payload, 11);
    assert PayloadSeq(last.queue) == [payload, payload];
    assert PayloadSeq(last.future) == [];
  }

  /**
    When they do overlap, a message can come out twice: two calls find the same delayed
    message before either erases it, and both send it.
  */
  lemma OverlappingTransfersDuplicate(now: nat, payload: nat)
    ensures exists states: seq<Pool>, actions: seq<Action> ::
              && IsRun(states, actions)
              && states[|actions|].transfers == map[]
              && states[|actions|].accepted == multiset{payload}
              && Accounted(states[|actions|]) == multiset{payload, payload}
  {
    OverlapIsRun(now, payload);
    OverlapResult(now, payload);
    var states := seq(12, i requires 0 <= i < 12 => OverlapState(now, payload, i));
    assert states[11] == OverlapState(now, payload, 11);
    assert states[11].transfers == map[] && states[11].accepted == multiset{payload};
    hide OverlapState, IsRun, Accounted;
  }
}
