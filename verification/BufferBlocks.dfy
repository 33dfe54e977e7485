/**
  Reference-counted blocks and the handles that point at them: what a consistent
  heap is, what each handle reads, and the four moves that every operation of the
  copy-on-write buffer is made of.
*/
module BufferBlocks {
  import opened Bytes

  const HEADER := 16
  const ALLOC_INCREMENT := 100
  // Sizes from here on would wrap when the header and the spare room are added.
  const LIMIT: nat := 0x1_0000_0000 - HEADER - ALLOC_INCREMENT

  datatype Ptr = Null | To(block: nat)

  // The data and its header; a count of -1 marks a locked block.
  datatype RawBlock = Block(mem: seq<byte>, size: nat, refs: int)
  type Block = b: RawBlock | b.size <= |b.mem| witness RawBlock.Block([], 0, 1)

  // What the owner of a handle can see: its bytes, and whether it is locked.
  datatype Content = Content(bytes: seq<byte>, locked: bool)

  ghost function Users(handles: map<nat, Ptr>, b: nat): set<nat> {
    set h | h in handles && handles[h] == To(b)
  }

  predicate InBounds(blk: Block) {
    blk.size < LIMIT && |blk.mem| < LIMIT + ALLOC_INCREMENT
  }

  ghost predicate Counted(blk: Block, users: set<nat>) {
    && |users| >= 1
    && (blk.refs == |users| || (blk.refs == -1 && |users| == 1))
  }

  /** No dangling handle, no unused block, every count right, every size within its block. */
  ghost predicate Good(blocks: map<nat, Block>, handles: map<nat, Ptr>) {
    && (forall h :: h in handles && handles[h].To? ==> handles[h].block in blocks)
    && (forall b :: b in blocks ==> Counted(blocks[b], Users(handles, b)) && InBounds(blocks[b]))
  }

  predicate Sole(blk: Block) {
    blk.refs == 1 || blk.refs == -1
  }

  function Seen(blk: Block): Content {
    Content(blk.mem[..blk.size], blk.refs == -1)
  }

  function SeenThrough(blocks: map<nat, Block>, p: Ptr): Content {
    if p.To? && p.block in blocks then Seen(blocks[p.block]) else Content([], false)
  }

  function ViewsOf(blocks: map<nat, Block>, handles: map<nat, Ptr>): map<nat, Content> {
    map h | h in handles :: SeenThrough(blocks, handles[h])
  }

  /** Newly allocated memory. */
  function Zeros(n: nat): (z: seq<byte>)
    ensures |z| == n && forall i :: 0 <= i < n ==> z[i] == 0
  {
    seq(n, i => 0)
  }

  /** The bytes an object has after a resize: `n` of them, the old ones kept as far as they reach. */
  ghost predicate Resized(old_: seq<byte>, n: nat, new_: seq<byte>) {
    && |new_| == n
    && forall i :: 0 <= i < n && i < |old_| ==> new_[i] == old_[i]
  }

  lemma OnlyUser(handles: map<nat, Ptr>, b: nat, h: nat, k: nat)
    requires h in Users(handles, b) && |Users(handles, b)| == 1 && k in Users(handles, b)
    ensures k == h
  {
    assert |Users(handles, b) - {h}| == 0;
  }

  lemma UsersAfter(handles: map<nat, Ptr>, h: nat, p: Ptr, b: nat)
    ensures Users(handles[h := p], b) == if p == To(b) then Users(handles, b) + {h} else Users(handles, b) - {h}
  {
  }

  /** Rewriting a block that only one handle uses shows through that handle alone. */
  lemma RewriteKeeps(blocks: map<nat, Block>, handles: map<nat, Ptr>, h: nat, blk: Block)
    requires Good(blocks, handles) && h in handles && handles[h].To? && Sole(blocks[handles[h].block])
    requires Sole(blk) && InBounds(blk)
    ensures var b := handles[h].block;
            && Good(blocks[b := blk], handles)
            && ViewsOf(blocks[b := blk], handles) == ViewsOf(blocks, handles)[h := Seen(blk)]
  {
    var b := handles[h].block;
    assert h in Users(handles, b);
    forall k | k in handles && k != h ensures handles[k] != To(b) {
      if handles[k] == To(b) {
        OnlyUser(handles, b, h, k);
      }
    }
  }

  /** An empty handle takes a block of its own. */
  lemma AttachKeeps(blocks: map<nat, Block>, handles: map<nat, Ptr>, h: nat, x: nat, blk: Block)
    requires Good(blocks, handles) && h in handles && handles[h] == Null
    requires x !in blocks && blk.refs == 1 && InBounds(blk)
    ensures Good(blocks[x := blk], handles[h := To(x)])
    ensures ViewsOf(blocks[x := blk], handles[h := To(x)]) == ViewsOf(blocks, handles)[h := Seen(blk)]
  {
    var handles' := handles[h := To(x)];
    assert Users(handles, x) == {};
    forall b | b in blocks[x := blk] ensures Counted(blocks[x := blk][b], Users(handles', b)) && InBounds(blocks[x := blk][b]) {
      UsersAfter(handles, h, To(x), b);
      if b != x {
        assert h !in Users(handles, b);
        assert Users(handles', b) == Users(handles, b);
      } else {
        assert Users(handles', b) == {h};
      }
    }
  }

  function Dropped(blocks: map<nat, Block>, b: nat): map<nat, Block>
    requires b in blocks
  {
    if blocks[b].refs > 1 then blocks[b := blocks[b].(refs := blocks[b].refs - 1)] else blocks - {b}
  }

  /** A block is freed exactly when the handle that leaves it was its last. */
  lemma FreedByTheLast(blocks: map<nat, Block>, handles: map<nat, Ptr>, h: nat)
    requires Good(blocks, handles) && h in handles && handles[h].To?
    ensures var b := handles[h].block;
            b !in Dropped(blocks, b) <==> Users(handles, b) == {h}
  {
    var b := handles[h].block;
    assert h in Users(handles, b);
    if blocks[b].refs <= 1 {
      forall k | k in Users(handles, b) ensures k == h {
        OnlyUser(handles, b, h, k);
      }
    }
  }

  lemma DetachCounts(blocks: map<nat, Block>, handles: map<nat, Ptr>, h: nat, c: nat)
    requires Good(blocks, handles) && h in handles && handles[h].To?
    requires c in Dropped(blocks, handles[h].block)
    ensures var blk := Dropped(blocks, handles[h].block)[c];
            && Counted(blk, Users(handles[h := Null], c)) && InBounds(blk)
  {
    assert h in Users(handles, handles[h].block);
    UsersAfter(handles, h, Null, c);
    if c != handles[h].block {
      assert h !in Users(handles, c);
      assert Users(handles[h := Null], c) == Users(handles, c);
    }
  }

  lemma DetachSpares(blocks: map<nat, Block>, handles: map<nat, Ptr>, h: nat, k: nat)
    requires Good(blocks, handles) && h in handles && handles[h].To?
    requires k in handles && k != h
    ensures SeenThrough(Dropped(blocks, handles[h].block), handles[k]) == SeenThrough(blocks, handles[k])
    ensures handles[k].To? ==> handles[k].block in Dropped(blocks, handles[h].block)
  {
    if handles[k] == handles[h] {
      assert k in Users(handles, handles[h].block);
      FreedByTheLast(blocks, handles, h);
    }
  }

  lemma DetachShows(blocks: map<nat, Block>, handles: map<nat, Ptr>, h: nat)
    requires Good(blocks, handles) && h in handles && handles[h].To?
    ensures ViewsOf(Dropped(blocks, handles[h].block), handles[h := Null]) == ViewsOf(blocks, handles)[h := Content([], false)]
  {
    forall k | k in handles && k != h
      ensures SeenThrough(Dropped(blocks, handles[h].block), handles[k]) == SeenThrough(blocks, handles[k])
    {
      DetachSpares(blocks, handles, h, k);
    }
  }

  /** A handle leaves its block; the last one to leave takes the block with it. */
  lemma DetachKeeps(blocks: map<nat, Block>, handles: map<nat, Ptr>, h: nat)
    requires Good(blocks, handles) && h in handles && handles[h].To?
    ensures Good(Dropped(blocks, handles[h].block), handles[h := Null])
    ensures ViewsOf(Dropped(blocks, handles[h].block), handles[h := Null]) == ViewsOf(blocks, handles)[h := Content([], false)]
  {
    DetachShows(blocks, handles, h);
    forall c | c in Dropped(blocks, handles[h].block)
      ensures Counted(Dropped(blocks, handles[h].block)[c], Users(handles[h := Null], c))
      ensures InBounds(Dropped(blocks, handles[h].block)[c])
    {
      DetachCounts(blocks, handles, h, c);
    }
    forall k | k in handles && k != h && handles[k].To? ensures handles[k].block in Dropped(blocks, handles[h].block) {
      DetachSpares(blocks, handles, h, k);
    }
  }

  /** An empty handle joins the users of an unlocked block. */
  lemma ShareKeeps(blocks: map<nat, Block>, handles: map<nat, Ptr>, h: nat, b: nat)
    requires Good(blocks, handles) && h in handles && handles[h] == Null && b in blocks && blocks[b].refs >= 1
    ensures var blk := blocks[b].(refs := blocks[b].refs + 1);
            && Good(blocks[b := blk], handles[h := To(b)])
            && ViewsOf(blocks[b := blk], handles[h := To(b)]) == ViewsOf(blocks, handles)[h := Seen(blk)]
  {
    var blk := blocks[b].(refs := blocks[b].refs + 1);
    var blocks', handles' := blocks[b := blk], handles[h := To(b)];
    forall c | c in blocks' ensures Counted(blocks'[c], Users(handles', c)) && InBounds(blocks'[c]) {
      UsersAfter(handles, h, To(b), c);
      assert h !in Users(handles, c);
      if c != b {
        assert Users(handles', c) == Users(handles, c);
      }
    }
  }

  lemma ArriveKeeps(blocks: map<nat, Block>, handles: map<nat, Ptr>, h: nat)
    requires Good(blocks, handles) && h !in handles
    ensures Good(blocks, handles[h := Null])
    ensures ViewsOf(blocks, handles[h := Null]) == ViewsOf(blocks, handles)[h := Content([], false)]
  {
    forall b | b in blocks ensures Users(handles[h := Null], b) == Users(handles, b) {}
  }

  lemma LeaveKeeps(blocks: map<nat, Block>, handles: map<nat, Ptr>, h: nat)
    requires Good(blocks, handles) && h in handles && handles[h] == Null
    ensures Good(blocks, handles - {h})
    ensures ViewsOf(blocks, handles - {h}) == ViewsOf(blocks, handles) - {h}
  {
    forall b | b in blocks ensures Users(handles - {h}, b) == Users(handles, b) {}
  }

  /** A block is live exactly while some handle points at it, so nothing leaks and nothing dangles. */
  lemma LiveIffUsed(blocks: map<nat, Block>, handles: map<nat, Ptr>, b: nat)
    requires Good(blocks, handles)
    ensures b in blocks <==> exists h :: h in handles && handles[h] == To(b)
    ensures handles == map[] ==> blocks == map[]
  {
  }
}
