/**
  Whole runs of buffer operations against a specification that knows nothing of
  blocks, counts or sharing: a map from objects to independent byte strings.
*/
module BufferRuns {
  import opened Bytes
  import opened BufferBlocks
  import opened Buffers

  // What a client may do to the buffers of a heap.
  datatype Op =
    | Construct(h: nat)
    | ConstructFrom(h: nat, data: seq<byte>)
    | Copy(h: nat, src: nat)
    | Destruct(h: nat)
    | Assignment(h: nat, src: nat)
    | AppendFrom(h: nat, src: nat)
    | LoadBytes(h: nat, data: seq<byte>)
    | AppendBytes(h: nat, data: seq<byte>)
    | Store(h: nat, index: nat, value: byte)
    | Resize(h: nat, n: nat)
    | Access(h: nat)
    | LockIt(h: nat)
    | UnlockIt(h: nat)
    | Clear(h: nat)
    | Trim(h: nat)

  /** The handles exist, and every size stays within the bound. */
  predicate Legal(v: map<nat, Content>, op: Op) {
    match op
    case Construct(h) => h !in v
    case ConstructFrom(h, data) => h !in v && |data| < LIMIT
    case Copy(h, src) => h !in v && src in v
    case Assignment(h, src) => h in v && src in v
    case AppendFrom(h, src) => h in v && src in v && h != src && |v[h].bytes| + |v[src].bytes| < LIMIT
    case LoadBytes(h, data) => h in v && |data| < LIMIT
    case AppendBytes(h, data) => h in v && |v[h].bytes| + |data| < LIMIT
    case Store(h, i, _) => h in v && i + 1 < LIMIT
    case Resize(h, n) => h in v && n < LIMIT
    case Destruct(h) => h in v
    case Access(h) => h in v
    case LockIt(h) => h in v
    case UnlockIt(h) => h in v
    case Clear(h) => h in v
    case Trim(h) => h in v
  }

  /** What the object operated on holds afterwards, were every object an independent byte string. */
  ghost predicate Becomes(v: map<nat, Content>, op: Op, c: Content)
    requires Legal(v, op)
  {
    match op
    case Construct(_) => c == Content([], false)
    case ConstructFrom(_, data) => c == Content(data, false)
    case Copy(_, src) => c == Content(v[src].bytes, false)
    case Assignment(h, src) => c == if h == src then v[h] else Content(v[src].bytes, v[h].locked && v[src].bytes != [])
    case AppendFrom(h, src) => c == Content(v[h].bytes + v[src].bytes, v[h].locked)
    case LoadBytes(h, data) => c == Content(data, v[h].locked)
    case AppendBytes(h, data) => c == Content(v[h].bytes + data, v[h].locked)
    case Store(h, i, value) => Stored(v[h], i, value, c)
    case Resize(h, n) => Resized(v[h].bytes, n, c.bytes) && c.locked == v[h].locked
    case Access(h) => c == v[h]
    case LockIt(h) => c.bytes == v[h].bytes && (c.bytes != [] ==> c.locked)
    case UnlockIt(h) => c == Content(v[h].bytes, false)
    case Clear(_) => c == Content([], false)
    case Trim(h) => c == Content(v[h].bytes, v[h].locked && v[h].bytes != [])
    case Destruct(_) => true
  }

  /** One operation on independent byte strings: its own object changes as it should, no other does. */
  ghost predicate SpecStep(v: map<nat, Content>, op: Op, v': map<nat, Content>) {
    && Legal(v, op)
    && if op.Destruct? then v' == v - {op.h}
       else op.h in v' && v' == v[op.h := v'[op.h]] && Becomes(v, op, v'[op.h])
  }

  ghost predicate SpecRun(trace: seq<map<nat, Content>>, ops: seq<Op>) {
    && |trace| == |ops| + 1
    && forall i :: 0 <= i < |ops| ==> SpecStep(trace[i], ops[i], trace[i+1])
  }

  /** Over a whole run, an object keeps its content for as long as no operation names it as the target. */
  lemma {:induction false} UntouchedKeepsContent(trace: seq<map<nat, Content>>, ops: seq<Op>, k: nat)
    requires SpecRun(trace, ops) && k in trace[0]
    requires forall i :: 0 <= i < |ops| ==> ops[i].h != k
    ensures k in trace[|ops|] && trace[|ops|][k] == trace[0][k]
  {
    if ops == [] {
    } else {
      var n := |ops| - 1;
      UntouchedKeepsContent(trace[..|ops|], ops[..n], k);
      assert SpecStep(trace[n], ops[n], trace[n+1]);
    }
  }

  /** Operations that expose no byte nobody has written, and do not lock an empty buffer. */
  predicate Exact(v: map<nat, Content>, op: Op)
    requires Legal(v, op)
  {
    && (op.Store? ==> op.index <= |v[op.h].bytes|)
    && (op.Resize? ==> op.n <= |v[op.h].bytes|)
    && (op.LockIt? ==> v[op.h].bytes != [])
  }

  lemma StepDetermined(v: map<nat, Content>, op: Op, a: map<nat, Content>, b: map<nat, Content>)
    requires SpecStep(v, op, a) && SpecStep(v, op, b) && Exact(v, op)
    ensures a == b
  {
    if !op.Destruct? {
      assert a[op.h].bytes == b[op.h].bytes;
    }
  }

  /** For such operations the bytes of every object at every moment follow from the operations alone. */
  lemma {:induction false} RunsAgree(a: seq<map<nat, Content>>, b: seq<map<nat, Content>>, ops: seq<Op>)
    requires SpecRun(a, ops) && SpecRun(b, ops) && a[0] == b[0]
    requires forall i :: 0 <= i < |ops| ==> Legal(a[i], ops[i]) && Exact(a[i], ops[i])
    ensures a == b
  {
    if ops == [] {
    } else {
      var n := |ops| - 1;
      RunsAgree(a[..|ops|], b[..|ops|], ops[..n]);
      assert a[n] == a[..|ops|][n] == b[n];
      StepDetermined(a[n], ops[n], a[n+1], b[n+1]);
    }
  }

  ghost predicate Shows(heap: BufferHeap, v: map<nat, Content>)
    reads heap
  {
    && heap.Valid()
    && v == heap.Views()
    && heap.handles.Keys == v.Keys
    && forall h :: h in v ==> v[h] == Shown(heap.BlockOf(h))
  }

  lemma ShowsViews(heap: BufferHeap)
    requires heap.Valid()
    ensures Shows(heap, heap.Views())
  {
  }

  method ApplyConstruct(heap: BufferHeap, op: Op)
    requires heap.Valid() && Legal(heap.Views(), op) && (op.Construct? || op.ConstructFrom?)
    modifies heap
    ensures heap.Valid() && SpecStep(old(heap.Views()), op, heap.Views())
  {
    ghost var before := heap.Views();
    ShowsViews(heap);
    heap.Create(op.h);
    ShowsViews(heap);
    if op.ConstructFrom? {
      heap.Load(op.h, op.data);
      Twice(before, op.h, Content([], false), Content(op.data, false));
    }
  }

  method ApplyDestruct(heap: BufferHeap, op: Op)
    requires heap.Valid() && Legal(heap.Views(), op) && op.Destruct?
    modifies heap
    ensures heap.Valid() && SpecStep(old(heap.Views()), op, heap.Views())
  {
    ShowsViews(heap);
    heap.Destroy(op.h);
  }

  method ApplyPair(heap: BufferHeap, op: Op)
    requires heap.Valid() && Legal(heap.Views(), op) && (op.Copy? || op.Assignment? || op.AppendFrom?)
    modifies heap
    ensures heap.Valid() && SpecStep(old(heap.Views()), op, heap.Views())
  {
    ShowsViews(heap);
    if op.Copy? {
      heap.CopyConstruct(op.h, op.src);
    } else if op.Assignment? {
      heap.Assign(op.h, op.src);
    } else {
      heap.AppendBuffer(op.h, op.src);
    }
  }

  method ApplySingle(heap: BufferHeap, op: Op)
    requires heap.Valid() && Legal(heap.Views(), op)
    requires op.LoadBytes? || op.AppendBytes? || op.Store? || op.Resize?
    modifies heap
    ensures heap.Valid() && SpecStep(old(heap.Views()), op, heap.Views())
  {
    ShowsViews(heap);
    if op.LoadBytes? {
      heap.Load(op.h, op.data);
    } else if op.AppendBytes? {
      heap.Append(op.h, op.data);
    } else if op.Store? {
      heap.SetAt(op.h, op.index, op.value);
    } else {
      heap.SetBufSize(op.h, op.n);
    }
  }

  method ApplyState(heap: BufferHeap, op: Op)
    requires heap.Valid() && Legal(heap.Views(), op)
    requires op.Access? || op.LockIt? || op.UnlockIt? || op.Clear? || op.Trim?
    modifies heap
    ensures heap.Valid() && SpecStep(old(heap.Views()), op, heap.Views())
  {
    ShowsViews(heap);
    if op.Access? {
      heap.GetData(op.h);
    } else if op.LockIt? {
      heap.Lock(op.h);
    } else if op.UnlockIt? {
      heap.Unlock(op.h);
    } else if op.Clear? {
      heap.Empty(op.h);
    } else {
      heap.FreeExtra(op.h);
    }
  }

  /** One legal operation on the heap is one step on independent byte strings. */
  method Apply(heap: BufferHeap, op: Op)
    requires heap.Valid() && Legal(heap.Views(), op)
    modifies heap
    ensures heap.Valid() && SpecStep(old(heap.Views()), op, heap.Views())
  {
    if op.Construct? || op.ConstructFrom? {
      ApplyConstruct(heap, op);
    } else if op.Destruct? {
      ApplyDestruct(heap, op);
    } else if op.Copy? || op.Assignment? || op.AppendFrom? {
      ApplyPair(heap, op);
    } else if op.LoadBytes? || op.AppendBytes? || op.Store? || op.Resize? {
      ApplySingle(heap, op);
    } else {
      ApplyState(heap, op);
    }
  }

  /** Runs operations on a new heap for as long as they are legal, in whatever order a client makes them. */
  method Run(ops: seq<Op>) returns (heap: BufferHeap, done: nat, ghost trace: seq<map<nat, Content>>)
    ensures fresh(heap) && heap.Valid() && done <= |ops|
    ensures SpecRun(trace, ops[..done]) && trace[0] == map[] && trace[done] == heap.Views()
    ensures done < |ops| ==> !Legal(trace[done], ops[done])
  {
    heap := new BufferHeap();
    done, trace := 0, [map[]];
    while done < |ops|
      invariant done <= |ops| && fresh(heap) && heap.Valid()
      invariant SpecRun(trace, ops[..done]) && trace[0] == map[] && trace[done] == heap.Views()
    {
      if !Legal(heap.Views(), ops[done]) {
        return;
      }
      Apply(heap, ops[done]);
      trace := trace + [heap.Views()];
      done := done + 1;
    }
  }
}
