/**
  The copy-on-write byte buffer.  `BufferHeap` holds the allocated blocks and any
  number of buffer objects (handles); its methods are the buffer's operations and
  change both in place.  Every method says what all handles read afterwards.
*/
module Buffers {
  import opened Basics
  import opened Bytes
  import opened BufferBlocks

  function Max(a: nat, b: nat): nat {
    if a >= b then a else b
  }

  /** memcpy to position `at` of a byte string. */
  function Overwrite(s: seq<byte>, at: nat, data: seq<byte>): (r: seq<byte>)
    requires at + |data| <= |s|
    ensures |r| == |s|
  {
    s[..at] + data + s[at + |data|..]
  }

  function Reallocated(mem: seq<byte>, n: nat): (r: seq<byte>)
    ensures Resized(mem, n, r)
  {
    if n <= |mem| then mem[..n] else mem + Zeros(n - |mem|)
  }

  /** The capacity recorded for a buffer after Grow. */
  function CapacityAfter(block: Option<Block>, n: nat, force: bool): nat {
    match block
    case None => n
    case Some(blk) =>
      if blk.refs > 1 then n
      else if !force && n <= |blk.mem| then |blk.mem|
      else if n == 0 then 0
      else n + ALLOC_INCREMENT
  }

  function BytesOf(block: Option<Block>): seq<byte> {
    if block.None? then [] else block.value.mem[..block.value.size]
  }

  function Shown(block: Option<Block>): Content {
    if block.None? then Content([], false) else Seen(block.value)
  }

  /** How far the memory of a resized block can be old: all of its own block, but only the bytes of one it shared. */
  function Kept(before: Option<Block>): nat {
    if before.None? then 0 else if before.value.refs > 1 then |BytesOf(before)| else |before.value.mem|
  }

  /** What Grow makes of the block behind a buffer; memory it allocates is zero. */
  ghost predicate Grown(before: Option<Block>, n: nat, force: bool, after: Option<Block>) {
    && (after.None? ==> n == 0 && (before.None? || force))
    && (after.Some? ==> Sole(after.value))
    && Resized(BytesOf(before), n, BytesOf(after))
    && Shown(after).locked == (Shown(before).locked && !(force && n == 0))
    && (if after.None? then 0 else |after.value.mem|) == CapacityAfter(before, n, force)
    && forall i :: Kept(before) <= i < |BytesOf(after)| ==> BytesOf(after)[i] == 0
  }

  function CreateBuffer(n: nat): Block {
    RawBlock.Block(Zeros(n), n, 1)
  }

  /** A shared block is left behind, and its bytes go to a new one of exactly the size asked for. */
  function CopiedTo(blk: Block, n: nat): (copy: Block)
    ensures Resized(blk.mem[..blk.size], n, copy.mem[..copy.size])
    ensures |copy.mem| == copy.size == n && copy.refs == 1
  {
    var m := if blk.size <= n then blk.size else n;
    CreateBuffer(n).(mem := Overwrite(Zeros(n), 0, blk.mem[..m]))
  }

  ghost predicate Stored(before: Content, i: nat, value: byte, after: Content) {
    && |after.bytes| == Max(i + 1, |before.bytes|)
    && after.bytes[i] == value
    && (forall j :: 0 <= j < |before.bytes| && j != i ==> after.bytes[j] == before.bytes[j])
    && after.locked == before.locked
  }

  lemma Twice(v: map<nat, Content>, h: nat, a: Content, b: Content)
    ensures v[h := a][h := b] == v[h := b]
  {
  }

  lemma WroteAll(s: seq<byte>, data: seq<byte>)
    requires |s| == |data|
    ensures Overwrite(s, 0, data) == data
  {
  }

  lemma WroteTail(before: seq<byte>, after: seq<byte>, data: seq<byte>)
    requires Resized(before, |before| + |data|, after)
    ensures Overwrite(after, |before|, data) == before + data
  {
  }

  lemma WroteOne(before: Content, grown: Content, i: nat, value: byte)
    requires Resized(before.bytes, Max(i + 1, |before.bytes|), grown.bytes) && grown.locked == before.locked
    ensures Stored(before, i, value, Content(Overwrite(grown.bytes, i, [value]), grown.locked))
  {
  }

  lemma SameSize(before: seq<byte>, after: seq<byte>)
    requires Resized(before, |before|, after)
    ensures after == before
  {
  }

  class BufferHeap {
    var blocks: map<nat, Block>
    var handles: map<nat, Ptr>
    var next: nat

    ghost predicate Valid()
      reads this
    {
      && Good(blocks, handles)
      && forall b :: b in blocks ==> b < next
    }

    /** What every object reads. */
    function Views(): map<nat, Content>
      reads this
    {
      ViewsOf(blocks, handles)
    }

    function BlockOf(h: nat): Option<Block>
      requires h in handles
      reads this
    {
      var p := handles[h];
      if p.To? && p.block in blocks then Some(blocks[p.block]) else None
    }

    function GetBufSize(h: nat): nat
      requires h in handles
      reads this
    {
      var b := BlockOf(h);
      if b.None? then 0 else b.value.size
    }

    function GetAllocSize(h: nat): nat
      requires h in handles
      reads this
    {
      var b := BlockOf(h);
      if b.None? then 0 else |b.value.mem|
    }

    constructor ()
      ensures Valid() && Views() == map[]
    {
      blocks, handles, next := map[], map[], 0;
    }

    /** Points an empty handle at a new block. */
    method Install(h: nat, blk: Block)
      requires Valid() && h in handles && handles[h] == Null && blk.refs == 1 && InBounds(blk)
      modifies this
      ensures Valid() && Views() == old(Views())[h := Seen(blk)]
      ensures handles.Keys == old(handles.Keys) && BlockOf(h) == Some(blk)
    {
      AttachKeeps(blocks, handles, h, next, blk);
      blocks := blocks[next := blk];
      handles := handles[h := To(next)];
      next := next + 1;
    }

    /** Gives up the block of a handle: one count less, and freed with the last. */
    method Release(h: nat)
      requires Valid() && h in handles && handles[h].To?
      modifies this
      ensures Valid() && Views() == old(Views())[h := Content([], false)]
      ensures handles.Keys == old(handles.Keys) && handles[h] == Null
    {
      DetachKeeps(blocks, handles, h);
      var b := handles[h].block;
      var refs := blocks[b].refs;
      if refs > 1 {
        blocks := blocks[b := blocks[b].(refs := refs - 1)];
      } else {
        blocks := blocks - {b};
      }
      handles := handles[h := Null];
    }

    /** Writes through a handle that has its block to itself. */
    method Rewrite(h: nat, blk: Block)
      requires Valid() && h in handles && handles[h].To? && Sole(blocks[handles[h].block])
      requires Sole(blk) && InBounds(blk)
      modifies this
      ensures Valid() && Views() == old(Views())[h := Seen(blk)]
      ensures handles.Keys == old(handles.Keys) && BlockOf(h) == Some(blk)
    {
      RewriteKeeps(blocks, handles, h, blk);
      blocks := blocks[handles[h].block := blk];
    }

    /** A shared block is left to the others; the object goes on with a copy, or with none. */
    method LeaveShared(h: nat, n: nat, empty: bool)
      requires Valid() && h in handles && BlockOf(h).Some? && BlockOf(h).value.refs > 1 && n < LIMIT
      modifies this
      ensures Valid() && handles.Keys == old(handles.Keys)
      ensures Views() == old(Views())[h := Shown(BlockOf(h))]
      ensures if empty then handles[h] == Null else Grown(old(BlockOf(h)), n, false, BlockOf(h)) && BlockOf(h).Some?
    {
      var blk := BlockOf(h).value;
      Release(h);
      if !empty {
        Install(h, CopiedTo(blk, n));
        Twice(old(Views()), h, Content([], false), Shown(BlockOf(h)));
      }
    }

    method Grow(h: nat, n: nat, force: bool, empty: bool)
      requires Valid() && h in handles && n < LIMIT
      modifies this
      ensures Valid() && handles.Keys == old(handles.Keys)
      ensures Views() == old(Views())[h := Shown(BlockOf(h))]
      ensures if empty then handles[h] == Null else Grown(old(BlockOf(h)), n, force, BlockOf(h))
      decreases if empty then 0 else 2
    {
      var block := BlockOf(h);
      if block.Some? && block.value.refs > 1 {
        LeaveShared(h, n, empty);
        return;
      }
      if empty {
        if block.Some? {
          Release(h);
        }
        return;
      }
      if block.None? {
        if n > 0 {
          Install(h, CreateBuffer(n));
        }
        return;
      }
      if !force && n <= |block.value.mem| {
        Rewrite(h, block.value.(size := n));
        return;
      }
      if n == 0 {
        Empty(h);
      } else {
        Rewrite(h, RawBlock.Block(Reallocated(block.value.mem, n + ALLOC_INCREMENT), n, block.value.refs));
      }
    }

    method Empty(h: nat)
      requires Valid() && h in handles
      modifies this
      ensures Valid() && Views() == old(Views())[h := Content([], false)]
      ensures handles.Keys == old(handles.Keys) && handles[h] == Null
      decreases 1
    {
      Grow(h, 0, false, true);
    }

    method Create(h: nat)
      requires Valid() && h !in handles
      modifies this
      ensures Valid() && Views() == old(Views())[h := Content([], false)]
      ensures handles.Keys == old(handles.Keys) + {h} && handles[h] == Null
    {
      ArriveKeeps(blocks, handles, h);
      handles := handles[h := Null];
    }

    method Destroy(h: nat)
      requires Valid() && h in handles
      modifies this
      ensures Valid() && Views() == old(Views()) - {h}
    {
      hide Good, SeenThrough;
      Empty(h);
      LeaveKeeps(blocks, handles, h);
      handles := handles - {h};
      assert old(Views())[h := Content([], false)] - {h} == old(Views()) - {h};
    }

    /** memcpy into a buffer that has just been grown. */
    method WriteAt(h: nat, at: nat, data: seq<byte>)
      requires Valid() && h in handles && BlockOf(h).Some? && Sole(BlockOf(h).value) && at + |data| <= GetBufSize(h)
      modifies this
      ensures Valid() && handles.Keys == old(handles.Keys)
      ensures var c := old(Shown(BlockOf(h))); Views() == old(Views())[h := Content(Overwrite(c.bytes, at, data), c.locked)]
    {
      var blk := BlockOf(h).value;
      assert Overwrite(blk.mem, at, data)[..blk.size] == Overwrite(blk.mem[..blk.size], at, data);
      Rewrite(h, blk.(mem := Overwrite(blk.mem, at, data)));
    }

    method Load(h: nat, data: seq<byte>)
      requires Valid() && h in handles && |data| < LIMIT
      modifies this
      ensures Valid() && handles.Keys == old(handles.Keys)
      ensures Views() == old(Views())[h := Content(data, old(Shown(BlockOf(h))).locked)]
    {
      Grow(h, |data|, false, false);
      ghost var grown := Shown(BlockOf(h));
      if |data| > 0 {
        WriteAt(h, 0, data);
        WroteAll(grown.bytes, data);
        Twice(old(Views()), h, grown, Content(data, grown.locked));
      } else {
        assert grown.bytes == data;
      }
    }

    method Append(h: nat, data: seq<byte>)
      requires Valid() && h in handles && GetBufSize(h) + |data| < LIMIT
      modifies this
      ensures Valid() && handles.Keys == old(handles.Keys)
      ensures var c := old(Shown(BlockOf(h))); Views() == old(Views())[h := Content(c.bytes + data, c.locked)]
    {
      var size := GetBufSize(h);
      ghost var before := Shown(BlockOf(h));
      Grow(h, |data| + size, false, false);
      ghost var grown := Shown(BlockOf(h));
      if GetBufSize(h) > 0 {
        WriteAt(h, size, data);
        WroteTail(before.bytes, grown.bytes, data);
        Twice(old(Views()), h, grown, Content(before.bytes + data, grown.locked));
      } else {
        assert grown.bytes == before.bytes + data;
      }
    }

    /** operator += with another buffer. */
    method AppendBuffer(h: nat, src: nat)
      requires Valid() && h in handles && src in handles && h != src && GetBufSize(h) + GetBufSize(src) < LIMIT
      modifies this
      ensures Valid() && handles.Keys == old(handles.Keys)
      ensures var c := old(Shown(BlockOf(h)));
              Views() == old(Views())[h := Content(c.bytes + old(BytesOf(BlockOf(src))), c.locked)]
    {
      hide Good, Overwrite;
      ghost var before := Shown(BlockOf(h));
      ghost var data := BytesOf(BlockOf(src));
      if GetBufSize(src) > 0 {
        var size := GetBufSize(h);
        Grow(h, size + GetBufSize(src), false, false);
        ghost var grown := Shown(BlockOf(h));
        assert Views()[src] == old(Views())[src];
        WriteAt(h, size, BytesOf(BlockOf(src)));
        WroteTail(before.bytes, grown.bytes, data);
        Twice(old(Views()), h, grown, Content(before.bytes + data, grown.locked));
      } else {
        assert before.bytes + data == before.bytes;
      }
    }

    method SetAt(h: nat, i: nat, value: byte)
      requires Valid() && h in handles && i + 1 < LIMIT
      modifies this
      ensures Valid() && handles.Keys == old(handles.Keys)
      ensures Views() == old(Views())[h := Shown(BlockOf(h))] && Stored(old(Shown(BlockOf(h))), i, value, Shown(BlockOf(h)))
    {
      var size := GetBufSize(h);
      ghost var before := Shown(BlockOf(h));
      Grow(h, if i >= size then i + 1 else size, false, false);
      ghost var grown := Shown(BlockOf(h));
      WriteAt(h, i, [value]);
      WroteOne(before, grown, i, value);
      Twice(old(Views()), h, grown, Content(Overwrite(grown.bytes, i, [value]), grown.locked));
      assert Views()[h] == Shown(BlockOf(h));
    }

    method SetBufSize(h: nat, n: nat)
      requires Valid() && h in handles && n < LIMIT
      modifies this
      ensures Valid() && handles.Keys == old(handles.Keys)
      ensures Views() == old(Views())[h := Shown(BlockOf(h))]
      ensures var c, c' := old(Shown(BlockOf(h))), Shown(BlockOf(h)); Resized(c.bytes, n, c'.bytes) && c'.locked == c.locked
    {
      Grow(h, n, false, false);
    }

    /** The writable accessor: afterwards the bytes are this object's alone. */
    method GetData(h: nat)
      requires Valid() && h in handles
      modifies this
      ensures Valid() && handles.Keys == old(handles.Keys)
      ensures Views() == old(Views())[h := old(Shown(BlockOf(h)))]
      ensures BlockOf(h).Some? ==> Sole(BlockOf(h).value)
    {
      ghost var before := Shown(BlockOf(h));
      if handles[h].To? {
        Grow(h, GetBufSize(h), false, false);
        SameSize(before.bytes, Shown(BlockOf(h)).bytes);
      }
    }

    method Lock(h: nat)
      requires Valid() && h in handles
      modifies this
      ensures Valid() && handles.Keys == old(handles.Keys)
      ensures Views() == old(Views())[h := Content(old(BytesOf(BlockOf(h))), old(BlockOf(h)).Some?)]
    {
      ghost var before := Shown(BlockOf(h));
      if handles[h].To? {
        Grow(h, GetBufSize(h), false, false);
        ghost var grown := Shown(BlockOf(h));
        SameSize(before.bytes, grown.bytes);
        Rewrite(h, BlockOf(h).value.(refs := -1));
        Twice(old(Views()), h, grown, Content(before.bytes, true));
      }
    }

    method Unlock(h: nat)
      requires Valid() && h in handles
      modifies this
      ensures Valid() && handles.Keys == old(handles.Keys)
      ensures Views() == old(Views())[h := Content(old(BytesOf(BlockOf(h))), false)]
    {
      if handles[h].To? {
        if BlockOf(h).value.refs == -1 {
          Rewrite(h, BlockOf(h).value.(refs := 1));
        }
      }
    }

    /** Reallocates for the size in use; `GetAllocSize` shows how much room is left. */
    method FreeExtra(h: nat)
      requires Valid() && h in handles
      modifies this
      ensures Valid() && handles.Keys == old(handles.Keys)
      ensures var c := old(Shown(BlockOf(h))); Views() == old(Views())[h := Content(c.bytes, c.locked && c.bytes != [])]
      ensures GetAllocSize(h) == CapacityAfter(old(BlockOf(h)), old(GetBufSize(h)), true)
      ensures GetAllocSize(h) == GetBufSize(h)
              <==> old(BlockOf(h)).None? || old(BlockOf(h)).value.refs > 1 || old(GetBufSize(h)) == 0
    {
      ghost var before := Shown(BlockOf(h));
      Grow(h, GetBufSize(h), true, false);
      SameSize(before.bytes, Shown(BlockOf(h)).bytes);
    }

    /** Joins the users of another buffer's unlocked block. */
    method Share(h: nat, src: nat)
      requires Valid() && h in handles && src in handles && handles[h] == Null
      requires BlockOf(src).Some? && BlockOf(src).value.refs >= 1
      modifies this
      ensures Valid() && handles.Keys == old(handles.Keys)
      ensures Views() == old(Views())[h := Content(old(BytesOf(BlockOf(src))), false)]
    {
      var b := handles[src].block;
      ShareKeeps(blocks, handles, h, b);
      blocks := blocks[b := blocks[b].(refs := blocks[b].refs + 1)];
      handles := handles[h := To(b)];
    }

    /** Takes a copy of the bytes of another buffer. */
    method CopyFrom(h: nat, src: nat)
      requires Valid() && h in handles && src in handles && h != src && GetBufSize(src) > 0
      modifies this
      ensures Valid() && handles.Keys == old(handles.Keys)
      ensures Views() == old(Views())[h := Content(old(BytesOf(BlockOf(src))), old(Shown(BlockOf(h))).locked)]
    {
      ghost var data := BytesOf(BlockOf(src));
      Grow(h, GetBufSize(src), false, false);
      ghost var grown := Shown(BlockOf(h));
      assert Views()[src] == old(Views())[src];
      WriteAt(h, 0, BytesOf(BlockOf(src)));
      WroteAll(grown.bytes, data);
      Twice(old(Views()), h, grown, Content(data, grown.locked));
    }

    method CopyConstruct(h: nat, src: nat)
      requires Valid() && h !in handles && src in handles
      modifies this
      ensures Valid() && handles.Keys == old(handles.Keys) + {h}
      ensures Views() == old(Views())[h := Content(old(BytesOf(BlockOf(src))), false)]
    {
      Create(h);
      assert Views()[src] == old(Views())[src];
      ghost var data := BytesOf(BlockOf(src));
      if handles[src] == Null || GetBufSize(src) == 0 {
        assert data == [];
        return;
      }
      if BlockOf(src).value.refs == -1 {
        CopyFrom(h, src);
      } else {
        Share(h, src);
      }
      Twice(old(Views()), h, Content([], false), Content(data, false));
    }

    /** operator =. */
    method Assign(h: nat, src: nat)
      requires Valid() && h in handles && src in handles
      modifies this
      ensures Valid() && handles.Keys == old(handles.Keys)
      ensures h == src ==> Views() == old(Views())
      ensures h != src ==> var bytes := old(BytesOf(BlockOf(src)));
                           Views() == old(Views())[h := Content(bytes, old(Shown(BlockOf(h))).locked && bytes != [])]
    {
      if h == src {
        return;
      }
      ghost var data := BytesOf(BlockOf(src));
      if handles[src] == Null || GetBufSize(src) == 0 {
        assert data == [];
        Empty(h);
        return;
      }
      if BlockOf(src).value.refs == -1 || (BlockOf(h).Some? && BlockOf(h).value.refs == -1) {
        CopyFrom(h, src);
        return;
      }
      if handles[h] != handles[src] {
        Empty(h);
        assert Views()[src] == old(Views())[src];
        Share(h, src);
        Twice(old(Views()), h, Content([], false), Content(data, false));
      }
    }
  }
}
