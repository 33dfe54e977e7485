/**
  Why the thread pool cannot deadlock on its two reader/writer locks, the one on
  the list of threads and the one on the message queue.

  An operation is the nest of locks its source takes, and a thread may go through it
  leaving out some of them and repeating others.  Both locks are
  re-entrant in the way `RwLock` describes: a nested request is granted at once,
  except that asking to write while only reading is never granted.
*/
module LockOrder {
  datatype Lock = Pool | Messages

  datatype Hold = Hold(lock: Lock, write: bool)

  datatype Step = Take(hold: Hold) | Drop

  // ------------------------------------------------------------- discipline

  predicate Holds(held: seq<Hold>, lock: Lock) {
    exists i :: 0 <= i < |held| && held[i].lock == lock
  }

  predicate HoldsWrite(held: seq<Hold>, lock: Lock) {
    exists i :: 0 <= i < |held| && held[i].lock == lock && held[i].write
  }

  /**
    Always the pool lock first, then the message lock if both are needed, and no
    request to write a lock that the thread only reads.
  */
  predicate Allowed(held: seq<Hold>, h: Hold) {
    if Holds(held, h.lock) then h.write ==> HoldsWrite(held, h.lock)
    else h.lock == Pool ==> !Holds(held, Messages)
  }

  datatype Outcome = Broken | Now(held: seq<Hold>)

  /** What a thread holds after these steps, or `Broken` if one of them is out of order. */
  function After(held: seq<Hold>, steps: seq<Step>): Outcome
    decreases |steps|
  {
    if steps == [] then Now(held)
    else
      match steps[0]
      case Take(h) => if Allowed(held, h) then After(held + [h], steps[1..]) else Broken
      case Drop => if held == [] then Broken else After(held[..|held|-1], steps[1..])
  }

  /** In order, and gives back exactly what it takes. */
  predicate Balanced(held: seq<Hold>, steps: seq<Step>) {
    After(held, steps) == Now(held)
  }

  lemma {:induction false} AfterConcat(held: seq<Hold>, a: seq<Step>, b: seq<Step>)
    ensures After(held, a + b) == (match After(held, a) case Broken => Broken case Now(h) => After(h, b))
    decreases |a|
  {
    if a == [] {
      assert a + b == b;
    } else {
      assert (a + b)[1..] == a[1..] + b;
      match a[0]
      case Take(h) => if Allowed(held, h) { AfterConcat(held + [h], a[1..], b); }
      case Drop => if held != [] { AfterConcat(held[..|held|-1], a[1..], b); }
    }
  }

  lemma ConcatBalanced(held: seq<Hold>, a: seq<Step>, b: seq<Step>)
    requires Balanced(held, a) && Balanced(held, b)
    ensures Balanced(held, a + b)
  {
    AfterConcat(held, a, b);
  }

  // -------------------------------------------------------------- nested locks

  /** A lock held around others, as the source's scoped acquisitions nest. */
  datatype Block = Block(lock: Lock, write: bool, body: seq<Block>) {
    function Held(): Hold { Hold(lock, write) }
  }

  function Steps(blocks: seq<Block>): seq<Step> {
    if blocks == [] then []
    else [Take(blocks[0].Held())] + Steps(blocks[0].body) + [Drop] + Steps(blocks[1..])
  }

  /** Every request is in order under what is held around it. */
  predicate Orderly(held: seq<Hold>, blocks: seq<Block>)
    decreases blocks
  {
    forall b :: b in blocks ==> BlockOrderly(held, b)
  }

  predicate BlockOrderly(held: seq<Hold>, b: Block)
    decreases b
  {
    Allowed(held, b.Held()) && Orderly(held + [b.Held()], b.body)
  }

  lemma BlockBalanced(held: seq<Hold>, h: Hold, body: seq<Step>)
    requires Allowed(held, h) && Balanced(held + [h], body)
    ensures Balanced(held, [Take(h)] + body + [Drop])
  {
    AfterConcat(held, [Take(h)] + body, [Drop]);
    AfterConcat(held, [Take(h)], body);
    assert After(held, [Take(h)]) == Now(held + [h]) by {
      assert [Take(h)][1..] == [];
    }
    assert (held + [h])[..|held|] == held;
    assert After(held + [h], [Drop]) == Now(held) by {
      assert [Drop][1..] == [];
    }
  }

  lemma {:induction false} OrderlyBalanced(held: seq<Hold>, blocks: seq<Block>)
    requires Orderly(held, blocks)
    ensures Balanced(held, Steps(blocks))
    decreases blocks
  {
    if blocks != [] {
      var h := blocks[0].Held();
      assert BlockOrderly(held, blocks[0]);
      OrderlyBalanced(held + [h], blocks[0].body);
      BlockBalanced(held, h, Steps(blocks[0].body));
      OrderlyBalanced(held, blocks[1..]);
      ConcatBalanced(held, [Take(h)] + Steps(blocks[0].body) + [Drop], Steps(blocks[1..]));
    }
  }

  // ---------------------------------------------------- the pool's operations

  const READ_MESSAGES := Block(Messages, false, [])
  const WRITE_MESSAGES := Block(Messages, true, [])

  /** Counting threads reads the length of the queue under the pool lock. */
  const COUNT_THREADS := Block(Pool, false, [READ_MESSAGES])

  /** Reads the settings, and the length of both queues when the minimum is zero. */
  const LEAST_THREADS := Block(Messages, false, [READ_MESSAGES])

  /** Adding an entry fires its event under the pool lock; linking the new event writes the queue. */
  const START_THREAD := Block(Pool, true, [Block(Pool, true, [Block(Pool, false, [])]), WRITE_MESSAGES])

  /** Marking a worker in use, from under both locks. */
  const SET_IN_USE := Block(Pool, false, [WRITE_MESSAGES])

  const ADD_THREADS :=
    Block(Pool, true, [COUNT_THREADS, LEAST_THREADS, START_THREAD,
                       Block(Messages, true, [READ_MESSAGES, WRITE_MESSAGES, START_THREAD])])

  /** Inserting a message or marking a worker idle; a push to the front fires the event. */
  const UPDATE_PERF := Block(Pool, false, [Block(Messages, true, [Block(Messages, true, [READ_MESSAGES]), READ_MESSAGES])])

  /** Erasing thread entries: the event of each leaves the message queue. */
  const DROP_THREADS := Block(Pool, true, [WRITE_MESSAGES])

  /**
    What threads do to a pool.  Stopping a pool is `StopThreads`, which asks and waits
    under one hold of the lock after another, followed by a transfer of the delayed
    messages (`FindDue`, `Send`, `EraseDue`) or by `DiscardMessages`.
  */
  datatype Operation =
    | Send
    | SendDelayed
    | PickMessage
    | RefuseMessage
    | ReturnMessage
    | Housekeeping
    | FindDue
    | EraseDue
    | KillMessages
    | ModifyMessages
    | SearchMessages
    | DiscardMessages
    | WaitForWork
    | CollectThreads
    | StopThreads
    | ExitThread

  /** The locks an operation takes, nested as its source nests them. */
  function Shape(op: Operation): seq<Block> {
    match op
    case Send => [Block(Pool, false, []), READ_MESSAGES, WRITE_MESSAGES, UPDATE_PERF, ADD_THREADS]
    case SendDelayed => [WRITE_MESSAGES, READ_MESSAGES, ADD_THREADS]
    case PickMessage => [Block(Pool, true, [Block(Messages, true, [SET_IN_USE])]), READ_MESSAGES, ADD_THREADS]
    case RefuseMessage => [Block(Pool, true, [Block(Messages, true, [])])]
    case ReturnMessage => [Block(Pool, true, [COUNT_THREADS, Block(Messages, true, [READ_MESSAGES])]), UPDATE_PERF, COUNT_THREADS]
    case Housekeeping => [READ_MESSAGES, Block(Pool, true, [COUNT_THREADS, LEAST_THREADS])]
    case FindDue => [READ_MESSAGES]
    case EraseDue => [WRITE_MESSAGES]
    case KillMessages => [Block(Pool, false, [Block(Messages, true, [READ_MESSAGES])])]
    case ModifyMessages => [Block(Pool, false, [Block(Messages, true, [READ_MESSAGES])])]
    case SearchMessages => [Block(Pool, false, [Block(Messages, false, [])])]
    case DiscardMessages => [Block(Pool, false, [Block(Messages, true, [Block(Messages, true, [READ_MESSAGES])])])]
    case WaitForWork => [LEAST_THREADS]
    case CollectThreads => [DROP_THREADS]
    case StopThreads => [Block(Pool, true, []), DROP_THREADS]
    case ExitThread => [WRITE_MESSAGES, COUNT_THREADS]
  }

  /**
    A way through an operation: each acquisition it makes is one of the shape's at the
    same nesting.  Branches leave some out and loops repeat some, in any number and order.
  */
  predicate Path(path: seq<Block>, shape: seq<Block>) {
    forall b :: b in path ==> exists c :: c in shape && BlockPath(b, c)
  }

  predicate BlockPath(b: Block, c: Block) {
    b.lock == c.lock && b.write == c.write && Path(b.body, c.body)
  }

  lemma {:induction false} PathOrderly(held: seq<Hold>, path: seq<Block>, shape: seq<Block>)
    requires Path(path, shape) && Orderly(held, shape)
    ensures Orderly(held, path)
    decreases path
  {
    forall b | b in path ensures BlockOrderly(held, b) {
      var c :| c in shape && BlockPath(b, c);
      assert BlockOrderly(held, c);
      PathOrderly(held + [b.Held()], b.body, c.body);
    }
  }

  /** Somewhere in these scopes the lock is held to write. */
  predicate Writes(blocks: seq<Block>, lock: Lock) {
    exists b :: b in blocks && ((b.lock == lock && b.write) || Writes(b.body, lock))
  }

  lemma WritesHere(blocks: seq<Block>, b: Block, lock: Lock)
    requires b in blocks && ((b.lock == lock && b.write) || Writes(b.body, lock))
    ensures Writes(blocks, lock)
  {
  }

  predicate ChangesQueues(op: Operation) {
    op.Send? || op.SendDelayed? || op.PickMessage? || op.ReturnMessage? || op.EraseDue? || op.KillMessages? || op.ModifyMessages?
    || op.DiscardMessages?
  }

  predicate ChangesThreads(op: Operation) {
    op.Send? || op.SendDelayed? || op.PickMessage? || op.CollectThreads? || op.StopThreads?
  }

  /** What changes the list of threads holds the pool's lock to write. */
  lemma ThreadsChangeLocked(op: Operation)
    requires ChangesThreads(op)
    ensures Writes(Shape(op), Pool)
  {
    hide Writes;
    match op
    case Send => WritesHere(Shape(op), ADD_THREADS, Pool);
    case SendDelayed => WritesHere(Shape(op), ADD_THREADS, Pool);
    case PickMessage => WritesHere(Shape(op), ADD_THREADS, Pool);
    case CollectThreads => WritesHere(Shape(op), DROP_THREADS, Pool);
    case StopThreads => WritesHere(Shape(op), DROP_THREADS, Pool);
  }

  /** What changes the message queue or the delayed messages holds their lock to write. */
  lemma QueuesChangeLocked(op: Operation)
    requires ChangesQueues(op)
    ensures Writes(Shape(op), Messages)
  {
    hide Writes;
    if op.Send? || op.SendDelayed? || op.EraseDue? {
      WritesHere(Shape(op), WRITE_MESSAGES, Messages);
    } else {
      var outer := Shape(op)[0];
      var inner := outer.body[if op.ReturnMessage? then 1 else 0];
      assert inner.lock == Messages && inner.write;
      WritesHere(outer.body, inner, Messages);
      WritesHere(Shape(op), outer, Messages);
    }
  }

  /** Nothing read-only is held that this work needs to write, and the message lock is not held alone. */
  predicate Ready(held: seq<Hold>) {
    && (Holds(held, Pool) ==> HoldsWrite(held, Pool))
    && (Holds(held, Messages) ==> HoldsWrite(held, Messages) && Holds(held, Pool))
  }

  lemma HoldsAppend(held: seq<Hold>, h: Hold, lock: Lock)
    ensures Holds(held + [h], lock) <==> Holds(held, lock) || h.lock == lock
    ensures HoldsWrite(held + [h], lock) <==> HoldsWrite(held, lock) || (h.lock == lock && h.write)
  {
    var held' := held + [h];
    assert held'[|held|] == h;
    forall i | 0 <= i < |held| ensures held'[i] == held[i] {}
    if Holds(held, lock) {
      var i :| 0 <= i < |held| && held[i].lock == lock;
      assert held'[i].lock == lock;
    }
    if HoldsWrite(held, lock) {
      var i :| 0 <= i < |held| && held[i].lock == lock && held[i].write;
      assert held'[i].lock == lock && held'[i].write;
    }
  }

  lemma HoldsBoth(held: seq<Hold>, h: Hold)
    ensures Holds(held + [h], Pool) <==> Holds(held, Pool) || h.lock == Pool
    ensures Holds(held + [h], Messages) <==> Holds(held, Messages) || h.lock == Messages
    ensures HoldsWrite(held + [h], Pool) <==> HoldsWrite(held, Pool) || (h.lock == Pool && h.write)
    ensures HoldsWrite(held + [h], Messages) <==> HoldsWrite(held, Messages) || (h.lock == Messages && h.write)
  {
    HoldsAppend(held, h, Pool);
    HoldsAppend(held, h, Messages);
  }

  /** Reads of the queue are in order whatever is held. */
  lemma ReadsOrderly(held: seq<Hold>)
    ensures BlockOrderly(held, READ_MESSAGES) && BlockOrderly(held, LEAST_THREADS)
    ensures (Holds(held, Messages) ==> Holds(held, Pool)) ==> BlockOrderly(held, COUNT_THREADS)
  {
    var m := held + [Hold(Messages, false)];
    var p := held + [Hold(Pool, false)];
    assert BlockOrderly(m, READ_MESSAGES) && BlockOrderly(p, READ_MESSAGES);
  }

  lemma NoneOrderly(held: seq<Hold>, lock: Lock)
    requires Allowed(held, Hold(lock, false))
    ensures BlockOrderly(held, Block(lock, false, []))
  {
  }

  lemma StartThreadOrderly(held: seq<Hold>)
    requires Ready(held)
    ensures BlockOrderly(held, START_THREAD) && BlockOrderly(held, WRITE_MESSAGES)
  {
    var one := held + [Hold(Pool, true)];
    HoldsBoth(held, Hold(Pool, true));
    HoldsBoth(one, Hold(Pool, true));
    NoneOrderly(one + [Hold(Pool, true)], Pool);
    assert BlockOrderly(one, Block(Pool, true, [Block(Pool, false, [])]));
    assert BlockOrderly(one, WRITE_MESSAGES);
  }

  lemma AddThreadsOrderly()
    ensures BlockOrderly([], ADD_THREADS)
  {
    hide START_THREAD, COUNT_THREADS, LEAST_THREADS, WRITE_MESSAGES, READ_MESSAGES;
    var pool := [] + [Hold(Pool, true)];
    var both := pool + [Hold(Messages, true)];
    HoldsBoth([], Hold(Pool, true));
    HoldsBoth(pool, Hold(Messages, true));
    ReadsOrderly(pool);
    ReadsOrderly(both);
    StartThreadOrderly(pool);
    StartThreadOrderly(both);
    assert BlockOrderly(pool, Block(Messages, true, [READ_MESSAGES, WRITE_MESSAGES, START_THREAD]));
  }

  /** A worker marked in use from under both locks. */
  lemma InUseOrderly()
    ensures BlockOrderly([], Block(Pool, true, [Block(Messages, true, [SET_IN_USE])]))
  {
    var pool := [] + [Hold(Pool, true)];
    var both := pool + [Hold(Messages, true)];
    HoldsBoth([], Hold(Pool, true));
    HoldsBoth(pool, Hold(Messages, true));
    HoldsBoth(both, Hold(Pool, false));
    assert BlockOrderly(both + [Hold(Pool, false)], WRITE_MESSAGES);
    assert BlockOrderly(both, SET_IN_USE);
    assert BlockOrderly(pool, Block(Messages, true, [SET_IN_USE]));
  }

  /** Work on the queue under a read hold of the pool. */
  lemma PerfOrderly()
    ensures BlockOrderly([], UPDATE_PERF) && Orderly([], Shape(KillMessages))
    ensures Orderly([], Shape(SearchMessages)) && Orderly([], Shape(DiscardMessages))
  {
    hide READ_MESSAGES;
    var pool := [] + [Hold(Pool, false)];
    var both := pool + [Hold(Messages, true)];
    HoldsBoth([], Hold(Pool, false));
    HoldsBoth(pool, Hold(Messages, true));
    ReadsOrderly(both);
    ReadsOrderly(both + [Hold(Messages, true)]);
    assert BlockOrderly(both, Block(Messages, true, [READ_MESSAGES]));
    assert BlockOrderly(pool, Block(Messages, true, [READ_MESSAGES]));
    assert BlockOrderly(pool, Block(Messages, true, [Block(Messages, true, [READ_MESSAGES])]));
    assert BlockOrderly(pool, Block(Messages, true, [Block(Messages, true, [READ_MESSAGES]), READ_MESSAGES]));
    assert BlockOrderly(pool, Block(Messages, false, []));
    assert BlockOrderly([], UPDATE_PERF);
  }

  /** Work of a worker and of a stopping pool under a write hold of the pool. */
  lemma WorkerOrderly()
    ensures Orderly([], Shape(RefuseMessage)) && Orderly([], Shape(StopThreads))
    ensures Orderly([], Shape(ReturnMessage)) && Orderly([], Shape(Housekeeping))
  {
    hide COUNT_THREADS, LEAST_THREADS, READ_MESSAGES, WRITE_MESSAGES, UPDATE_PERF;
    var pool := [] + [Hold(Pool, true)];
    HoldsBoth([], Hold(Pool, true));
    ReadsOrderly([]);
    ReadsOrderly(pool);
    ReadsOrderly(pool + [Hold(Messages, true)]);
    StartThreadOrderly(pool);
    PerfOrderly();
    assert BlockOrderly(pool, Block(Messages, true, []));
    assert BlockOrderly(pool, Block(Messages, true, [READ_MESSAGES]));
    assert BlockOrderly([], Block(Pool, true, []));
    assert BlockOrderly([], DROP_THREADS);
    assert BlockOrderly([], Block(Pool, true, [Block(Messages, true, [])]));
    assert BlockOrderly([], Block(Pool, true, [COUNT_THREADS, LEAST_THREADS]));
    assert BlockOrderly([], Block(Pool, true, [COUNT_THREADS, Block(Messages, true, [READ_MESSAGES])]));
  }

  /** Every operation of the pool nests its locks in order. */
  lemma ShapesOrderly(op: Operation)
    ensures Orderly([], Shape(op))
  {
    hide START_THREAD, COUNT_THREADS, LEAST_THREADS, READ_MESSAGES, ADD_THREADS, UPDATE_PERF, SET_IN_USE, BlockOrderly;
    ReadsOrderly([]);
    StartThreadOrderly([]);
    AddThreadsOrderly();
    PerfOrderly();
    InUseOrderly();
    WorkerOrderly();
    assert BlockOrderly([], Block(Pool, false, [])) && BlockOrderly([], DROP_THREADS) by {
      NoneOrderly([], Pool);
      assert DROP_THREADS in Shape(StopThreads);
    }
    match op
    case Send =>
    case SendDelayed =>
    case PickMessage =>
    case RefuseMessage =>
    case ReturnMessage =>
    case Housekeeping =>
    case FindDue =>
    case EraseDue =>
    case KillMessages =>
    case ModifyMessages =>
    case SearchMessages =>
    case DiscardMessages =>
    case WaitForWork =>
    case CollectThreads =>
    case StopThreads =>
    case ExitThread =>
  }

  /** Every way through every operation keeps the lock order and returns what it takes. */
  lemma OperationsBalanced(op: Operation, path: seq<Block>)
    requires Path(path, Shape(op))
    ensures Balanced([], Steps(path))
  {
    ShapesOrderly(op);
    PathOrderly([], path, Shape(op));
    OrderlyBalanced([], path);
  }

  // ----------------------------------------------------------------- threads

  /** A thread: what it holds and what it still has to do. */
  datatype Thread = Thread(held: seq<Hold>, steps: seq<Step>)

  /** It keeps the order to its end, and ends holding nothing. */
  predicate InOrder(t: Thread) {
    After(t.held, t.steps) == Now([])
  }

  predicate OthersHold(ts: seq<Thread>, t: nat, lock: Lock) {
    exists u :: 0 <= u < |ts| && u != t && Holds(ts[u].held, lock)
  }

  predicate OthersWrite(ts: seq<Thread>, t: nat, lock: Lock) {
    exists u :: 0 <= u < |ts| && u != t && HoldsWrite(ts[u].held, lock)
  }

  /** A nested request is granted at once unless it is an upgrade; an outer one when the others' modes allow it. */
  predicate Granted(ts: seq<Thread>, t: nat, h: Hold)
    requires t < |ts|
  {
    if Holds(ts[t].held, h.lock) then h.write ==> HoldsWrite(ts[t].held, h.lock)
    else if h.write then !OthersHold(ts, t, h.lock)
    else !OthersWrite(ts, t, h.lock)
  }

  /** Granted even by a system lock that makes readers queue behind each other or behind waiting writers. */
  predicate SurelyGranted(ts: seq<Thread>, t: nat, h: Hold)
    requires t < |ts|
  {
    if Holds(ts[t].held, h.lock) then h.write ==> HoldsWrite(ts[t].held, h.lock)
    else !OthersHold(ts, t, h.lock)
  }

  predicate CanStep(ts: seq<Thread>, t: nat) {
    && t < |ts| && ts[t].steps != []
    && match ts[t].steps[0]
       case Take(h) => Granted(ts, t, h)
       case Drop => ts[t].held != []
  }

  predicate SurelyCanStep(ts: seq<Thread>, t: nat) {
    && t < |ts| && ts[t].steps != []
    && match ts[t].steps[0]
       case Take(h) => SurelyGranted(ts, t, h)
       case Drop => ts[t].held != []
  }

  function StepThread(x: Thread): Thread
    requires x.steps != [] && (x.steps[0].Drop? ==> x.held != [])
  {
    match x.steps[0]
    case Take(h) => Thread(x.held + [h], x.steps[1..])
    case Drop => Thread(x.held[..|x.held|-1], x.steps[1..])
  }

  function Next(ts: seq<Thread>, t: nat): seq<Thread>
    requires CanStep(ts, t)
  {
    ts[t := StepThread(ts[t])]
  }

  /** One operation done by a thread, and the way it takes through it. */
  datatype Call = Call(op: Operation, path: seq<Block>)

  predicate Legal(calls: seq<Call>) {
    forall i :: 0 <= i < |calls| ==> Path(calls[i].path, Shape(calls[i].op))
  }

  function AllSteps(calls: seq<Call>): seq<Step> {
    if calls == [] then [] else AllSteps(calls[..|calls|-1]) + Steps(calls[|calls|-1].path)
  }

  lemma {:induction false} AllStepsBalanced(calls: seq<Call>)
    requires Legal(calls)
    ensures Balanced([], AllSteps(calls))
  {
    if calls != [] {
      var last := calls[|calls|-1];
      AllStepsBalanced(calls[..|calls|-1]);
      OperationsBalanced(last.op, last.path);
      ConcatBalanced([], AllSteps(calls[..|calls|-1]), Steps(last.path));
    }
  }

  /** Any number of threads, each going in any way through any list of pool operations, in any interleaving. */
  ghost predicate IsRun(work: seq<seq<Call>>, states: seq<seq<Thread>>, who: seq<nat>) {
    && (forall t :: 0 <= t < |work| ==> Legal(work[t]))
    && |states| == |who| + 1
    && states[0] == seq(|work|, t requires 0 <= t < |work| => Thread([], AllSteps(work[t])))
    && forall k :: 0 <= k < |who| ==> CanStep(states[k], who[k]) && states[k+1] == Next(states[k], who[k])
  }

  lemma {:induction false} RunStaysInOrder(work: seq<seq<Call>>, states: seq<seq<Thread>>, who: seq<nat>, k: nat, t: nat)
    requires IsRun(work, states, who) && k < |states|
    ensures |states[k]| == |work|
    ensures t < |work| ==> InOrder(states[k][t])
  {
    if k == 0 {
      if t < |work| {
        AllStepsBalanced(work[t]);
      }
    } else {
      RunStaysInOrder(work, states, who, k - 1, t);
    }
  }

  /** Whoever holds the message lock can go on; failing that, whoever holds the pool lock; failing that, anyone. */
  lemma SomeoneCanStep(ts: seq<Thread>, t: nat)
    requires forall u :: 0 <= u < |ts| ==> InOrder(ts[u])
    requires t < |ts| && ts[t].steps != []
    ensures exists u :: SurelyCanStep(ts, u)
  {
    if u :| 0 <= u < |ts| && Holds(ts[u].held, Messages) {
      HolderCanStep(ts, u, Messages);
    } else if u :| 0 <= u < |ts| && Holds(ts[u].held, Pool) {
      HolderCanStep(ts, u, Pool);
    } else {
      assert InOrder(ts[t]);
      assert SurelyCanStep(ts, t);
    }
  }

  lemma HolderCanStep(ts: seq<Thread>, u: nat, lock: Lock)
    requires u < |ts| && InOrder(ts[u]) && Holds(ts[u].held, lock)
    requires lock == Pool ==> forall v :: 0 <= v < |ts| ==> !Holds(ts[v].held, Messages)
    ensures SurelyCanStep(ts, u)
  {
  }

  /**
    However the system locks choose among waiting threads: in every state of every run
    in which some thread has work left, some thread can take its next step.
  */
  lemma PoolNeverDeadlocks(work: seq<seq<Call>>, states: seq<seq<Thread>>, who: seq<nat>, k: nat, t: nat)
    requires IsRun(work, states, who) && k < |states| && t < |work|
    requires t < |states[k]| && states[k][t].steps != []
    ensures exists u :: SurelyCanStep(states[k], u)
  {
    RunStaysInOrder(work, states, who, k, t);
    forall u | 0 <= u < |states[k]| ensures InOrder(states[k][u]) {
      RunStaysInOrder(work, states, who, k, u);
    }
    SomeoneCanStep(states[k], t);
  }

  /** Whatever is sure to be granted is granted. */
  lemma SureStepsAreSteps(ts: seq<Thread>, t: nat)
    requires SurelyCanStep(ts, t)
    ensures CanStep(ts, t)
  {
  }

  lemma PoolThenMessages()
    ensures After([Hold(Pool, true)], [Take(Hold(Messages, true)), Drop, Drop]) == Now([])
  {
    var inner := [Take(Hold(Messages, true))] + [] + [Drop];
    HoldsBoth([], Hold(Pool, true));
    assert [] + [Hold(Pool, true)] == [Hold(Pool, true)];
    BlockBalanced([Hold(Pool, true)], Hold(Messages, true), []);
    AfterConcat([Hold(Pool, true)], inner, [Drop]);
    assert [Take(Hold(Messages, true)), Drop, Drop] == inner + [Drop];
    assert [Drop][1..] == [];
  }

  /** The order is what matters: two threads that nest the locks in opposite orders can stop each other for good. */
  lemma OppositeOrdersDeadlock()
    ensures var ts := [Thread([Hold(Pool, true)], [Take(Hold(Messages, true)), Drop, Drop]),
                       Thread([Hold(Messages, true)], [Take(Hold(Pool, false)), Drop, Drop])];
            InOrder(ts[0]) && !InOrder(ts[1]) && forall t :: !CanStep(ts, t)
  {
    var ts := [Thread([Hold(Pool, true)], [Take(Hold(Messages, true)), Drop, Drop]),
               Thread([Hold(Messages, true)], [Take(Hold(Pool, false)), Drop, Drop])];
    PoolThenMessages();
    assert ts[0].held[0].write && ts[1].held[0].lock == Messages;
    assert OthersHold(ts, 0, Messages) && OthersWrite(ts, 1, Pool);
  }
}
