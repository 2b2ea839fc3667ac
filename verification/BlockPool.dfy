/** The memory blocks of the block cache and the pool they come from. Blocks are records in the
    pool's memory, and the lists and maps of the cache hold references to them. */
module BlockPool {
  import opened FlatFile
  import opened Sequences

  type Ref = nat

  /** The one-slot channel of a block: work is outstanding, its result waits to be received, or the
      channel is closed and receives at once. */
  datatype Chan = Pending | Ready | Closed

  datatype Block = Block(id: int, offset: nat, endIndex: nat, data: Bytes, state: Chan, dirty: bool, failed: bool,
                         synced: bool)

  /** As good as new, but for the bytes it holds. */
  function ReUsed(b: Block): Block { Block(-1, 0, 0, b.data, Pending, false, false, false) }

  function Elements(s: seq<Ref>): set<Ref> { set r | r in s }

  lemma {:induction false} UnrepeatedSize(s: seq<Ref>)
    requires Unrepeated(s)
    ensures |Elements(s)| == |s|
  {
    if s != [] {
      var n := |s| - 1;
      UnrepeatedSize(s[..n]);
      assert Elements(s) == Elements(s[..n]) + {s[n]};
      assert s[n] !in Elements(s[..n]);
    }
  }

  lemma {:induction false} SubsetSize(a: set<Ref>, b: set<Ref>)
    requires a <= b
    ensures |a| <= |b| && (|a| == |b| ==> a == b)
  {
    if a != {} {
      var x :| x in a;
      SubsetSize(a - {x}, b - {x});
    }
  }

  /** The free blocks are among the live ones, no more than fit the pool, and at least as many blocks
      are live as the pool was made with. */
  ghost predicate Sound(free: seq<Ref>, blocks: map<Ref, Block>, nextRef: Ref, maxBlocks: nat, blockSize: nat)
  {
    && Unrepeated(free) && |free| <= maxBlocks <= |blocks.Keys| && Elements(free) <= blocks.Keys
    && forall r :: r in blocks ==> r < nextRef && |blocks[r].data| == blockSize
  }

  class BlockPool {
    const blockSize: nat
    const maxBlocks: nat
    var free: seq<Ref>
    var blocks: map<Ref, Block>    // every block mapped and not unmapped
    var nextRef: Ref

    ghost predicate Valid()
      reads this
    {
      Sound(free, blocks, nextRef, maxBlocks, blockSize)
    }

    constructor (blockSize: nat, memSize: nat)
      requires 0 < blockSize <= memSize
      ensures Valid() && |free| == maxBlocks == memSize / blockSize && blocks.Keys == Elements(free)
      ensures this.blockSize == blockSize
    {
      this.blockSize, maxBlocks := blockSize, memSize / blockSize;
      free, blocks, nextRef := [], map[], 0;
      new;
      while |free| < maxBlocks
        invariant Unrepeated(free) && |free| <= maxBlocks && blocks.Keys == Elements(free) && |blocks.Keys| == |free|
        invariant forall r :: r in blocks ==> r < nextRef && |blocks[r].data| == blockSize
      {
        ghost var keys := blocks.Keys;
        var r := AllocateBlock();
        assert blocks.Keys == keys + {r};
        free := free + [r];
      }
    }

    /** The bytes of newly mapped memory are not specified. */
    method AllocateBlock() returns (r: Ref)
      requires forall r :: r in blocks ==> r < nextRef
      modifies this`blocks, this`nextRef
      ensures r == old(nextRef) && nextRef == r + 1 && r in blocks && blocks == old(blocks)[r := blocks[r]]
      ensures |blocks[r].data| == blockSize && blocks[r].id == -1
    {
      var data: Bytes :| |data| == blockSize by { assert |Zeros(blockSize)| == blockSize; }
      r := nextRef;
      blocks, nextRef := blocks[r := Block(-1, 0, 0, data, Closed, false, false, false)], nextRef + 1;
    }

    /** A block from the free list, else a newly mapped one; none when mapping fails. */
    method MustGet() returns (ok: bool, r: Ref)
      requires Valid()
      modifies this
      ensures Valid()
      ensures old(free) != [] ==> ok
      ensures !ok ==> free == old(free) && blocks == old(blocks)
      ensures ok ==> Taken(old(free), free, old(blocks), blocks, r)
    {
      ok, r := TryGet();
      if ok { return; }
      ok := *;
      if !ok { return false, 0; }
      r := AllocateBlock();
      blocks := blocks[r := ReUsed(blocks[r])];
      assert blocks.Keys == old(blocks.Keys) + {r};
    }

    /** A block from the free list if there is one. */
    method TryGet() returns (ok: bool, r: Ref)
      requires Valid()
      modifies this
      ensures Valid() && ok == (old(free) != [])
      ensures !ok ==> free == old(free) && blocks == old(blocks)
      ensures ok ==> Taken(old(free), free, old(blocks), blocks, r)
    {
      if free == [] { return false, 0; }
      ok, r := true, free[0];
      free := free[1..];
      blocks := blocks[r := ReUsed(blocks[r])];
      assert blocks.Keys == old(blocks.Keys);
    }

    /** Back to the free list, or unmapped when that is full. */
    method Release(r: Ref)
      requires Valid() && r in blocks && r !in free
      modifies this`free, this`blocks
      ensures Valid()
      ensures if |old(free)| < maxBlocks then free == old(free) + [r] && blocks == old(blocks)
              else free == old(free) && blocks == old(blocks) - {r}
    {
      if |free| < maxBlocks {
        free := free + [r];
      } else {
        UnrepeatedSize(free);
        SubsetSize(Elements(free), blocks.Keys - {r});
        blocks := blocks - {r};
        assert blocks.Keys == old(blocks.Keys) - {r};
      }
    }

    /** ReUse and Release of a block that its handle has taken off its lists. */
    method GiveBack(r: Ref, ghost cooked: seq<Ref>, ghost cooking: seq<Ref>, ghost cooked': seq<Ref>,
                    ghost cooking': seq<Ref>,
                    ghost others: map<Ref, Block>)
      requires Valid() && Owned(blocks.Keys, free, cooked, cooking, others.Keys) && Theirs(blocks, others)
      requires (r in cooked || r in cooking) && (forall q :: q in cooked' <==> q in cooked && q != r)
      requires forall q :: q in cooking' <==> q in cooking && q != r
      modifies this`free, this`blocks
      ensures Valid() && Owned(blocks.Keys, free, cooked', cooking', others.Keys) && Theirs(blocks, others)
      ensures forall q :: q in old(blocks) && q != r ==> q in blocks && blocks[q] == old(blocks)[q]
      ensures |free| >= |old(free)|
    {
      hide Owned, Sound, Theirs;
      ReleasedOwned(blocks.Keys, free, cooked, cooking, cooked', cooking', others.Keys, r);
      assert r in blocks.Keys;
      var b := ReUsed(blocks[r]);
      SoundUpdated(free, blocks, r, b, nextRef, maxBlocks, blockSize);
      blocks := blocks[r := b];
      Release(r);
      ReleasedKeys(old(blocks), blocks, r, b);
      ReleasedTheirs(old(blocks), blocks, old(free), cooked, cooking, others, r, b);
    }
  }

  /** NewBlockPool: no pool exactly for a size that makes no sense, or when the memory cannot be mapped. */
  method NewBlockPool(blockSize: nat, memSize: nat, mappable: bool) returns (pool: BlockPool?)
    ensures pool == null <==> blockSize == 0 || memSize < blockSize || !mappable
    ensures pool != null ==>
      fresh(pool) && pool.Valid() && pool.blockSize == blockSize > 0 && pool.maxBlocks == memSize / blockSize
    ensures pool != null ==> |pool.free| == pool.maxBlocks && pool.blocks.Keys == Elements(pool.free)
  {
    pool := null;
    if blockSize == 0 || memSize < blockSize { return; }
    if !mappable { return; }
    pool := new BlockPool(blockSize, memSize);
  }

  /** Block r left the free list, or is new, and nothing else changed. */
  ghost predicate Taken(free: seq<Ref>, free': seq<Ref>, blocks: map<Ref, Block>, blocks': map<Ref, Block>, r: Ref)
  {
    && r !in free' && r in blocks' && blocks'[r] == ReUsed(blocks'[r]) && blocks' == blocks[r := blocks'[r]]
    && if free == [] then free' == [] && r !in blocks else free == [r] + free' && r in blocks
  }

  /** Every live block is free, on one of this handle's lists, or another handle's. */
  ghost predicate Owned(live: set<Ref>, free: seq<Ref>, cooked: seq<Ref>, cooking: seq<Ref>, others: set<Ref>)
  {
    && live == Elements(free) + Elements(cooked) + Elements(cooking) + others
    && (forall r :: r in free ==> r !in cooked && r !in cooking && r !in others)
    && (forall r :: r in others ==> r !in cooked && r !in cooking)
  }

  /** The blocks of other handles are as they were. */
  ghost predicate Theirs(blocks: map<Ref, Block>, others: map<Ref, Block>)
  {
    forall r :: r in others ==> r in blocks && blocks[r] == others[r]
  }

  /** Changing or letting go of a block of one's own leaves those of others alone. */
  lemma TheirsKept(blocks: map<Ref, Block>, blocks': map<Ref, Block>, free: seq<Ref>, cooked: seq<Ref>,
                   cooking: seq<Ref>,
                   others: map<Ref, Block>, r: Ref)
    requires Owned(blocks.Keys, free, cooked, cooking, others.Keys) && Theirs(blocks, others)
    requires (r in cooked || r in cooking)
    requires forall q :: q in blocks && q != r ==> q in blocks' && blocks'[q] == blocks[q]
    ensures Theirs(blocks', others)
  {
  }

  lemma ReleasedTheirs(blocks: map<Ref, Block>, blocks': map<Ref, Block>, free: seq<Ref>, cooked: seq<Ref>,
                       cooking: seq<Ref>,
                       others: map<Ref, Block>, r: Ref, b: Block)
    requires Owned(blocks.Keys, free, cooked, cooking, others.Keys) && Theirs(blocks, others)
    requires (r in cooked || r in cooking)
    requires blocks' == blocks[r := b] || blocks' == blocks[r := b] - {r}
    ensures Theirs(blocks', others)
  {
  }

  lemma OwnedLive(live: set<Ref>, free: seq<Ref>, cooked: seq<Ref>, cooking: seq<Ref>, others: set<Ref>, r: Ref)
    requires Owned(live, free, cooked, cooking, others) && (r in cooked || r in cooking)
    ensures r in live
  {
    assert r in Elements(cooked) + Elements(cooking);
  }

  lemma TakenFacts(free: seq<Ref>, free': seq<Ref>, blocks: map<Ref, Block>, taken: map<Ref, Block>, r: Ref)
    requires Taken(free, free', blocks, taken, r)
    ensures r in taken && taken == blocks[r := taken[r]] && taken[r] == ReUsed(taken[r])
  {
  }

  /** A block taken from the pool, and then changed, is not one of theirs. */
  lemma TakenTheirs(blocks: map<Ref, Block>, taken: map<Ref, Block>, others: map<Ref, Block>, r: Ref, b: Block)
    requires Theirs(blocks, others) && r in taken && taken == blocks[r := taken[r]] && r !in others
    ensures Theirs(taken, others) && Theirs(taken[r := b], others)
  {
  }

  lemma SoundUpdated(free: seq<Ref>, blocks: map<Ref, Block>, r: Ref, b: Block, nextRef: Ref, maxBlocks: nat,
                     blockSize: nat)
    requires Sound(free, blocks, nextRef, maxBlocks, blockSize) && r in blocks && |b.data| == |blocks[r].data|
    ensures Sound(free, blocks[r := b], nextRef, maxBlocks, blockSize) && blocks[r := b].Keys == blocks.Keys
  {
    assert blocks[r := b].Keys == blocks.Keys;
  }

  lemma ReleasedKeys(blocks: map<Ref, Block>, blocks': map<Ref, Block>, r: Ref, b: Block)
    requires r in blocks && (blocks' == blocks[r := b] || blocks' == blocks[r := b] - {r})
    ensures r in blocks' ==> blocks'.Keys == blocks.Keys
    ensures r !in blocks' ==> blocks'.Keys == blocks.Keys - {r}
    ensures forall q :: q in blocks && q != r ==> q in blocks' && blocks'[q] == blocks[q]
  {
  }

  lemma AllFree(free: seq<Ref>, blocks: map<Ref, Block>, nextRef: Ref, maxBlocks: nat, blockSize: nat)
    requires Sound(free, blocks, nextRef, maxBlocks, blockSize)
    ensures blocks.Keys == Elements(free) ==> |free| == maxBlocks
  {
    UnrepeatedSize(free);
  }

  lemma OwnedMoved(live: set<Ref>, free: seq<Ref>, cooked: seq<Ref>, cooking: seq<Ref>, others: set<Ref>)
    requires Owned(live, free, cooked, cooking, others) && cooked != [] && Unrepeated(cooked)
    ensures Owned(live, free, cooked[1..], [cooked[0]] + cooking, others)
  {
    FrontGone(cooked);
    var c, d := cooked[1..], [cooked[0]] + cooking;
    assert forall q :: q in d <==> q in cooking || q == cooked[0];
    hide Unrepeated;
    assert Elements(c) + Elements(d) == Elements(cooked) + Elements(cooking);
  }

  lemma TakenSize(free: seq<Ref>, taken: map<Ref, Block>, r: Ref, nextRef: Ref, maxBlocks: nat, blockSize: nat)
    requires Sound(free, taken, nextRef, maxBlocks, blockSize) && r in taken
    ensures |taken[r].data| == blockSize
  {
  }

  /** A block taken from the pool was nobody's. */
  lemma TakenOwned(blocks: map<Ref, Block>, taken: map<Ref, Block>, free: seq<Ref>, free': seq<Ref>,
                   cooked: seq<Ref>, cooking: seq<Ref>, others: set<Ref>, r: Ref)
    requires Owned(blocks.Keys, free, cooked, cooking, others) && Taken(free, free', blocks, taken, r)
    ensures r !in cooked && r !in cooking && r !in others && r !in free'
    ensures taken.Keys == Elements(free') + Elements(cooked) + Elements(cooking) + others + {r}
    ensures forall q :: q in free' ==> q !in cooked && q !in cooking && q !in others
    ensures forall q :: q in others ==> q !in cooked && q !in cooking
    ensures forall q :: (q in cooked || q in cooking) && q in blocks ==> q in taken && taken[q] == blocks[q]
  {
  }

  /** A block that leaves the lists of its handle goes to the free list or is unmapped. */
  lemma ReleasedOwned(live: set<Ref>, free: seq<Ref>, cooked: seq<Ref>, cooking: seq<Ref>, cooked': seq<Ref>,
                      cooking': seq<Ref>,
                      others: set<Ref>, r: Ref)
    requires Owned(live, free, cooked, cooking, others) && (r in cooked || r in cooking)
    requires forall q :: q in cooked' <==> q in cooked && q != r
    requires forall q :: q in cooking' <==> q in cooking && q != r
    ensures r in live && r !in free && Owned(live, free + [r], cooked', cooking', others)
    ensures Owned(live - {r}, free, cooked', cooking', others)
  {
    assert r in Elements(cooked) + Elements(cooking);
    assert Elements(cooked) + Elements(cooking) == Elements(cooked') + Elements(cooking') + {r};
    assert Elements(free + [r]) == Elements(free) + {r};
  }
}
