/**
  How a file is cut into the parts of a multipart upload.  The loop of the
  source becomes `PlanParts`; it is proved equal to `PartsFrom`, and what an
  accepted plan promises is proved about that function.
*/
module PartPlan {
  import opened Basics

  const MEGABYTE: nat := 0x100000
  const MAX_PARTS: nat := 1000
  const MIN_PART: nat := 5 * MEGABYTE
  const UINT64: nat := 0x1_0000_0000_0000_0000

  datatype Part = Part(num: nat, base: nat, size: nat)

  datatype PlanResult = NoUpload | Plan(parts: seq<Part>)

  /** Rounds up to the next multiple of `boundary`. */
  function AlignAny(size: nat, boundary: nat): nat
    requires boundary > 0
  {
    ((size + boundary - 1) / boundary) * boundary
  }

  /** The length of every part but the last. */
  function PartLength(fileSize: nat, partSizeMb: nat): nat
    requires partSizeMb >= 1
  {
    AlignIsIdentity(partSizeMb);
    var length := AlignAny(MEGABYTE * partSizeMb, 0x10000);
    if fileSize / length > MAX_PARTS then fileSize / (MAX_PARTS - 1) else length
  }

  /** The sizes for which the source declines a multipart upload. */
  predicate Declined(fileSize: nat, partSizeMb: nat)
    requires partSizeMb >= 1
  {
    var length := PartLength(fileSize, partSizeMb);
    fileSize < MEGABYTE * partSizeMb || length < MIN_PART || fileSize <= length
  }

  lemma QuotientAbove(fileSize: nat, length: nat)
    requires length > 0
    ensures fileSize / length > MAX_PARTS <==> fileSize >= (MAX_PARTS + 1) * length
  {
    var q := fileSize / length;
    assert q * length <= fileSize < (q + 1) * length;
    if q > MAX_PARTS {
      MulMonotone(MAX_PARTS + 1, q, length);
    } else {
      MulMonotone(q + 1, MAX_PARTS + 1, length);
    }
  }

  /** The length asked for is kept for files of up to 1001 parts; a longer file is cut by 999, rounded down. */
  lemma PartLengthMeaning(fileSize: nat, partSizeMb: nat)
    requires partSizeMb >= 1
    ensures var length, size := PartLength(fileSize, partSizeMb), partSizeMb * 0x100000;
            if fileSize < 1001 * size then length == size
            else size <= length && 999 * length <= fileSize < 999 * length + 999
  {
    AlignIsIdentity(partSizeMb);
    QuotientAbove(fileSize, MEGABYTE * partSizeMb);
  }

  /**
    A file is declined exactly when it fits in one part of the size asked for, or that size is
    below 5 MB and kept, or it is recomputed for a file of less than 999 times 5 MB.
  */
  lemma DeclinedIff(fileSize: nat, partSizeMb: nat)
    requires partSizeMb >= 1
    ensures var size := partSizeMb * 0x100000;
            Declined(fileSize, partSizeMb) <==>
              (fileSize <= size || (fileSize < 1001 * size && partSizeMb < 5) || (1001 * size <= fileSize < 999 * 5 * 0x100000))
  {
    PartLengthMeaning(fileSize, partSizeMb);
  }

  /** The parts from `offset` to the end of the file. */
  function PartsFrom(offset: nat, num: nat, fileSize: nat, length: nat): seq<Part>
    requires length > 0
    decreases if offset < fileSize then fileSize - offset else 0
  {
    if fileSize <= offset then []
    else
      var size := if fileSize - offset < length then fileSize - offset else length;
      [Part(num, offset, size)] + PartsFrom(offset + size, num + 1, fileSize, length)
  }

  /** All parts have the planned length, except that the last may be shorter. */
  ghost predicate EqualButLast(parts: seq<Part>, length: nat) {
    && (forall i :: 0 <= i < |parts| - 1 ==> parts[i].size == length)
    && (|parts| > 0 ==> parts[|parts|-1].size <= length)
  }

  lemma AlignIsIdentity(partSizeMb: nat)
    ensures AlignAny(MEGABYTE * partSizeMb, 0x10000) == MEGABYTE * partSizeMb
  {
    var n := 16 * partSizeMb;
    assert MEGABYTE * partSizeMb == 0x10000 * n;
    assert (0x10000 * n + 0xffff) / 0x10000 == n;
  }

  /** Part `i` starts where the part before it ends. */
  predicate Adjacent(parts: seq<Part>, i: nat)
    requires 1 <= i < |parts|
  {
    parts[i].base == parts[i-1].base + parts[i-1].size
  }

  /** Consecutive parts, numbered from `num`, running from `offset` to the end of the file. */
  ghost predicate IsChain(parts: seq<Part>, offset: nat, num: nat, fileSize: nat) {
    && (parts == [] ==> fileSize <= offset)
    && (parts != [] ==> parts[0].base == offset && parts[|parts|-1].base + parts[|parts|-1].size == fileSize)
    && (forall i :: 0 <= i < |parts| ==> parts[i].num == num + i && parts[i].size >= 1)
    && (forall i :: 1 <= i < |parts| ==> Adjacent(parts, i))
  }

  /** A gap-free, overlap-free, in-order cover of the file, numbered from 1. */
  ghost predicate IsCover(parts: seq<Part>, fileSize: nat) {
    parts != [] && IsChain(parts, 0, 1, fileSize)
  }

  lemma ChainCons(part: Part, rest: seq<Part>, offset: nat, num: nat, fileSize: nat)
    requires IsChain(rest, offset + part.size, num + 1, fileSize)
    requires part.num == num && part.base == offset && 1 <= part.size && offset + part.size <= fileSize
    ensures IsChain([part] + rest, offset, num, fileSize)
  {
    var parts := [part] + rest;
    forall i | 1 <= i < |parts| ensures Adjacent(parts, i) {
      if i > 1 {
        assert Adjacent(rest, i - 1);
      }
    }
  }

  /** The tail of the plan, generalised over where the loop stands. */
  lemma {:induction false} PartsFromShape(offset: nat, num: nat, fileSize: nat, length: nat)
    requires length > 0
    ensures var parts := PartsFrom(offset, num, fileSize, length);
            EqualButLast(parts, length) && IsChain(parts, offset, num, fileSize)
    decreases if offset < fileSize then fileSize - offset else 0
  {
    if offset < fileSize {
      var size := if fileSize - offset < length then fileSize - offset else length;
      PartsFromShape(offset + size, num + 1, fileSize, length);
      ChainCons(Part(num, offset, size), PartsFrom(offset + size, num + 1, fileSize, length), offset, num, fileSize);
    }
  }

  /** The number of parts is the file size divided by the length, rounded up. */
  lemma {:induction false} PartsFromCount(offset: nat, num: nat, fileSize: nat, length: nat)
    requires length > 0
    ensures offset < fileSize ==>
              var n := |PartsFrom(offset, num, fileSize, length)|;
              n >= 1 && (n - 1) * length < fileSize - offset <= n * length
    decreases if offset < fileSize then fileSize - offset else 0
  {
    if offset < fileSize {
      var size := if fileSize - offset < length then fileSize - offset else length;
      PartsFromCount(offset + size, num + 1, fileSize, length);
      var n := |PartsFrom(offset, num, fileSize, length)|;
      var rest := |PartsFrom(offset + size, num + 1, fileSize, length)|;
      assert n == rest + 1;
      if offset + size < fileSize {
        assert size == length;
        assert (n - 1) * length == (rest - 1) * length + length;
        assert n * length == rest * length + length;
      } else {
        assert rest == 0;
        assert n * length == length;
      }
    }
  }

  /**
    Every accepted plan: it covers the file exactly, its parts are equal and at
    least 5 MB except for a non-empty last one, and there are between 2 and
    1001 of them; at most 1000 when the length had to be recomputed.
  */
  lemma PlanIsGood(fileSize: nat, partSizeMb: nat)
    requires partSizeMb >= 1
    requires !Declined(fileSize, partSizeMb)
    ensures var length := PartLength(fileSize, partSizeMb);
            var parts := PartsFrom(0, 1, fileSize, length);
            && length >= MIN_PART
            && IsCover(parts, fileSize)
            && EqualButLast(parts, length)
            && 2 <= |parts| <= MAX_PARTS + 1
            && (fileSize / (MEGABYTE * partSizeMb) > MAX_PARTS ==> |parts| <= MAX_PARTS)
  {
    AlignIsIdentity(partSizeMb);
    var length := PartLength(fileSize, partSizeMb);
    PartsFromShape(0, 1, fileSize, length);
    PartsFromCount(0, 1, fileSize, length);
    var n := |PartsFrom(0, 1, fileSize, length)|;
    if fileSize / (MEGABYTE * partSizeMb) > MAX_PARTS {
      assert fileSize < 999 * length + 999;
      CountBound(n, length, fileSize, MAX_PARTS);
    } else {
      var big := MEGABYTE * partSizeMb;
      assert length == big;
      QuotientBound(fileSize, length, MAX_PARTS);
      CountBound(n, length, fileSize, MAX_PARTS + 1);
    }
  }

  lemma QuotientBound(x: nat, d: nat, q: nat)
    requires d > 0 && x / d <= q
    ensures x < (q + 1) * d
  {
  }

  lemma CountBound(n: nat, length: nat, fileSize: nat, bound: nat)
    requires n >= 1 && length > 0
    requires (n - 1) * length < fileSize <= bound * length
    ensures n <= bound
  {
  }

  /** The limit of 1000 parts is missed by one: 5000 MB and one byte, in parts of 5 MB. */
  lemma PlanCanReach1001()
    ensures var fileSize := 1000 * MIN_PART + 1;
            && !Declined(fileSize, 5)
            && PartLength(fileSize, 5) == MIN_PART
            && |PartsFrom(0, 1, fileSize, MIN_PART)| == MAX_PARTS + 1
  {
    AlignIsIdentity(5);
    var fileSize := 1000 * MIN_PART + 1;
    assert fileSize / MIN_PART == 1000;
    PartsFromCount(0, 1, fileSize, MIN_PART);
  }

  /** An accepted plan keeps the limit exactly when the part length was recomputed or the file fits in 1000 parts as asked for. */
  lemma LimitIsKeptIff(fileSize: nat, partSizeMb: nat)
    requires partSizeMb >= 1
    requires !Declined(fileSize, partSizeMb)
    ensures |PartsFrom(0, 1, fileSize, PartLength(fileSize, partSizeMb))| <= MAX_PARTS
            <==> fileSize / (MEGABYTE * partSizeMb) > MAX_PARTS || fileSize <= MAX_PARTS * (MEGABYTE * partSizeMb)
  {
    AlignIsIdentity(partSizeMb);
    PlanIsGood(fileSize, partSizeMb);
    var big := MEGABYTE * partSizeMb;
    if fileSize / big <= MAX_PARTS {
      PartsFromCount(0, 1, fileSize, big);
      var n := |PartsFrom(0, 1, fileSize, big)|;
      if fileSize <= MAX_PARTS * big {
        CountBound(n, big, fileSize, MAX_PARTS);
      } else if n <= MAX_PARTS {
        MulMonotone(n, MAX_PARTS, big);
      }
    }
  }

  /** One part is all there is exactly when the file fits in it. */
  lemma SinglePart(fileSize: nat, length: nat)
    requires length > 0
    ensures |PartsFrom(0, 1, fileSize, length)| <= 1 <==> fileSize <= length
  {
  }

  /** The planning loop, with the 64-bit offsets of the source. */
  method CutParts(fileSize: nat, length: nat) returns (parts: seq<Part>)
    requires fileSize < UINT64 && length > 0
    ensures parts == PartsFrom(0, 1, fileSize, length)
  {
    var offset, num := 0, 0;
    parts := [];
    while offset < fileSize
      invariant offset <= fileSize
      invariant parts + PartsFrom(offset, num + 1, fileSize, length) == PartsFrom(0, 1, fileSize, length)
      decreases fileSize - offset
    {
      num := num + 1;
      var size := if fileSize - offset < length then fileSize - offset else length;
      var part := Part(num, offset, size);
      ghost var rest := PartsFrom(offset + size, num + 1, fileSize, length);
      assert parts + ([part] + rest) == (parts + [part]) + rest;
      parts := parts + [part];
      assert offset + size < UINT64;
      offset := offset + size;
    }
  }

  /** The whole decision: a plan, or the reasons to decline. */
  method PlanParts(fileSize: nat, partSizeMb: nat) returns (r: PlanResult)
    requires fileSize < UINT64
    requires 1 <= partSizeMb < 0x1_0000_0000
    ensures r.NoUpload? <==> Declined(fileSize, partSizeMb)
    ensures r.Plan? ==> r.parts == PartsFrom(0, 1, fileSize, PartLength(fileSize, partSizeMb))
  {
    AlignIsIdentity(partSizeMb);
    if fileSize < MEGABYTE * partSizeMb {
      return NoUpload;
    }
    var length := AlignAny(MEGABYTE * partSizeMb, 0x10000);
    if fileSize / length > MAX_PARTS {
      length := fileSize / (MAX_PARTS - 1);
    }
    if length < MIN_PART {
      return NoUpload;
    }
    var parts := CutParts(fileSize, length);
    SinglePart(fileSize, length);
    if |parts| <= 1 {
      return NoUpload;
    }
    return Plan(parts);
  }
}
