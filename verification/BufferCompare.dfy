/** The buffer's comparison: by length first, in 32-bit arithmetic, then byte by byte. */
module BufferCompare {
  import opened Bytes
  import opened BufferBlocks
  import opened Buffers

  /** The value of an unsigned 32-bit difference read as a signed integer. */
  function Wrap32(d: int): int {
    var m := d % 0x1_0000_0000;
    if m < 0x8000_0000 then m else m - 0x1_0000_0000
  }

  /** memcmp: the difference of the first bytes that differ. */
  function MemCompare(a: seq<byte>, b: seq<byte>): int
    requires |a| == |b|
  {
    if a == [] then 0
    else if a[0] != b[0] then a[0] as int - b[0] as int
    else MemCompare(a[1..], b[1..])
  }

  ghost predicate DiffersBelow(a: seq<byte>, b: seq<byte>, i: nat) {
    i < |a| && i < |b| && a[i] < b[i] && forall j :: 0 <= j < i ==> a[j] == b[j]
  }

  /** Shorter strings first, strings of one length in byte order. */
  ghost predicate Less(a: seq<byte>, b: seq<byte>) {
    |a| < |b| || (|a| == |b| && exists i: nat :: DiffersBelow(a, b, i))
  }

  lemma Prepend(a: seq<byte>, b: seq<byte>)
    requires |a| == |b| > 0 && a[0] == b[0]
    ensures Less(a, b) <==> Less(a[1..], b[1..])
  {
    if Less(a, b) {
      var i: nat :| DiffersBelow(a, b, i);
      assert DiffersBelow(a[1..], b[1..], i - 1);
    }
    if Less(a[1..], b[1..]) {
      var i: nat :| DiffersBelow(a[1..], b[1..], i);
      assert DiffersBelow(a, b, i + 1);
    }
  }

  lemma {:induction false} MemCompareMeaning(a: seq<byte>, b: seq<byte>)
    requires |a| == |b|
    ensures MemCompare(a, b) == 0 <==> a == b
    ensures MemCompare(a, b) < 0 <==> Less(a, b)
    ensures MemCompare(a, b) > 0 <==> Less(b, a)
  {
    if a == [] {
    } else if a[0] == b[0] {
      MemCompareMeaning(a[1..], b[1..]);
      Prepend(a, b);
      Prepend(b, a);
      assert a == [a[0]] + a[1..] && b == [b[0]] + b[1..];
    } else {
      assert DiffersBelow(a, b, 0) || DiffersBelow(b, a, 0);
    }
  }

  /** Any two strings are comparable, in one way only, and the order is transitive. */
  lemma LessIsAnOrder(a: seq<byte>, b: seq<byte>, c: seq<byte>)
    ensures !(Less(a, b) && Less(b, a)) && !Less(a, a)
    ensures Less(a, b) || a == b || Less(b, a)
    ensures Less(a, b) && Less(b, c) ==> Less(a, c)
  {
    if |a| == |b| {
      MemCompareMeaning(a, b);
    }
    MemCompareMeaning(a, a);
    if Less(a, b) && Less(b, c) && |a| == |c| {
      var i: nat :| DiffersBelow(a, b, i);
      var j: nat :| DiffersBelow(b, c, j);
      var k := if i < j then i else j;
      assert DiffersBelow(a, c, k);
    }
  }

  function Compared(a: seq<byte>, b: seq<byte>): int {
    var diff := Wrap32(|a| - |b|);
    if diff == 0 && |a| == |b| then MemCompare(a, b) else diff
  }

  /** The sign is the order exactly when the lengths differ by less than a signed 32-bit integer holds. */
  lemma SignIsOrderIff(a: seq<byte>, b: seq<byte>)
    requires |a| < 0x1_0000_0000 && |b| < 0x1_0000_0000
    ensures ((Compared(a, b) < 0 <==> Less(a, b)) && (Compared(a, b) > 0 <==> Less(b, a)))
       <==> -0x8000_0000 <= |a| - |b| < 0x8000_0000
  {
    if |a| == |b| {
      MemCompareMeaning(a, b);
    }
  }

  method Compare(heap: BufferHeap, h: nat, k: nat) returns (r: int)
    requires heap.Valid() && h in heap.handles && k in heap.handles
    ensures r == Compared(BytesOf(heap.BlockOf(h)), BytesOf(heap.BlockOf(k)))
    ensures r == 0 <==> BytesOf(heap.BlockOf(h)) == BytesOf(heap.BlockOf(k))
  {
    var size := heap.GetBufSize(h);
    r := Wrap32(size - heap.GetBufSize(k));
    if r == 0 && size != 0 {
      MemCompareMeaning(BytesOf(heap.BlockOf(h)), BytesOf(heap.BlockOf(k)));
      r := MemCompare(BytesOf(heap.BlockOf(h)), BytesOf(heap.BlockOf(k)));
    }
  }
}
