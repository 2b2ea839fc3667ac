/** The list of block ids with their file ranges that an edit works on. */
module BlockList {
  import opened FlatFile
  import opened BlobStore

  datatype Block = Block(start: int, end: int, id: Id, dirty: bool, truncated: bool, removed: bool, data: Bytes)

  function Size(b: Block): int { b.end - b.start }

  predicate Holds(b: Block, offset: int) { b.start <= offset < b.end }

  /** Non-empty blocks, back to back from file position 0. */
  ghost predicate Tiled(bs: seq<Block>)
  {
    && (bs != [] ==> bs[0].start == 0)
    && (forall i :: 0 <= i < |bs| ==> bs[i].start < bs[i].end)
    && (forall i, j :: 0 <= i && j == i + 1 < |bs| ==> bs[i].end == bs[j].start)
  }

  function End(bs: seq<Block>): int { if bs == [] then 0 else bs[|bs| - 1].end }

  /** File position where block k starts; for k = |bs| where the list ends. */
  function StartOf(bs: seq<Block>, k: nat): int
    requires k <= |bs|
  {
    if k < |bs| then bs[k].start else End(bs)
  }

  lemma {:induction false} TiledOrder(bs: seq<Block>, i: nat, j: nat)
    requires Tiled(bs) && i < j < |bs|
    ensures bs[i].end <= bs[j].start
    decreases j
  {
    if i < j - 1 { TiledOrder(bs, i, j - 1); }
  }

  lemma TiledOrders(bs: seq<Block>)
    requires Tiled(bs)
    ensures forall i, j :: 0 <= i < j < |bs| ==> bs[i].end <= bs[j].start
  {
    forall i, j | 0 <= i < j < |bs| ensures bs[i].end <= bs[j].start { TiledOrder(bs, i, j); }
  }

  /** Every file position below the end lies in exactly one block. */
  lemma {:induction false} OneHolder(bs: seq<Block>, offset: int) returns (i: nat)
    requires Tiled(bs) && 0 <= offset < End(bs)
    ensures i < |bs| && Holds(bs[i], offset)
    ensures forall j :: 0 <= j < |bs| && Holds(bs[j], offset) ==> j == i
    decreases |bs|
  {
    TiledOrders(bs);
    i := |bs| - 1;
    if offset < bs[i].start {
      i := OneHolder(bs[..i], offset);
      assert bs[..|bs| - 1][i] == bs[i];
    }
  }

  /** `now` is `was` with exactly the blocks of [lo, hi) marked dirty. */
  ghost predicate MarkedDirty(was: seq<Block>, now: seq<Block>, lo: nat, hi: nat)
  {
    && lo <= hi <= |was| == |now|
    && forall i :: 0 <= i < |was| ==> now[i] == if lo <= i < hi then was[i].(dirty := true) else was[i]
  }

  class BlockOffsetList {
    var blocks: seq<Block>

    constructor (bs: seq<Block>)
      ensures blocks == bs
    {
      blocks := bs;
    }

    /** On a tiled list: found exactly when some block holds the offset, and then that block's index. */
    method BinarySearch(offset: int) returns (found: bool, index: nat)
      ensures found ==> index < |blocks| && Holds(blocks[index], offset)
      ensures !found ==> index == |blocks|
      ensures Tiled(blocks) ==> found == (exists i :: 0 <= i < |blocks| && Holds(blocks[i], offset))
      ensures Tiled(blocks) ==> found == (0 <= offset < End(blocks))
    {
      ghost var tiled := Tiled(blocks);
      if tiled { TiledOrders(blocks); }
      var lower, higher := 0, |blocks| - 1;
      while lower <= higher
        invariant 0 <= lower <= higher + 1 <= |blocks|
        invariant tiled ==> forall i :: 0 <= i < |blocks| && !(lower <= i <= higher) ==> !Holds(blocks[i], offset)
      {
        var middle := (lower + higher) / 2;
        if blocks[middle].end > offset && blocks[middle].start <= offset {
          return true, middle;
        } else if blocks[middle].end <= offset {
          lower := middle + 1;
        } else {
          higher := middle - 1;
        }
      }
      if tiled && 0 <= offset < End(blocks) {
        var i := OneHolder(blocks, offset);
      }
      return false, |blocks|;
    }

    /** The loop of FindBlocksToModify: from the block that holds `offset` on, marks every block
        that starts at or before the end of the write and adds up their sizes. */
    method MarkRun(index: nat, offset: nat, length: nat) returns (size: nat, ghost end: nat)
      requires Tiled(blocks) && index < |blocks| && Holds(blocks[index], offset)
      modifies this
      ensures index < end <= |blocks| && MarkedDirty(old(blocks), blocks, index, end)
      ensures old(blocks)[end - 1].start <= offset + length
      ensures end < |blocks| ==> offset + length < old(blocks)[end].start
      ensures size == StartOf(old(blocks), end) - StartOf(old(blocks), index) > 0
    {
      ghost var was := blocks;
      size := 0;
      var current: int := offset;
      end := index;
      var k := index;
      while k < |blocks|
        invariant index <= k == end <= |blocks| && MarkedDirty(was, blocks, index, k)
        invariant k > index ==> was[k - 1].start <= offset + length
        invariant current == if k == index then offset else was[k - 1].end
        invariant size == StartOf(was, k) - StartOf(was, index) && (k > index ==> size > 0)
      {
        var blk := blocks[k];
        if blk.start > offset + length { break; }
        if blk.start <= current < blk.end && current <= offset + length {
          blocks := blocks[k := blk.(dirty := true)];
          current := blk.end;
          size := size + (blk.end - blk.start);
        }
        k := k + 1;
        end := end + 1;
      }
    }

    /** Marks dirty exactly the run of blocks from the one that holds `offset` through the last
        one that starts at or before offset + length, and returns the run's total size. */
    method FindBlocksToModify(offset: nat, length: nat)
      returns (index: nat, size: nat, exceeds: bool, appendOnly: bool, ghost end: nat)
      requires Tiled(blocks)
      modifies this
      ensures index <= end <= |blocks| && MarkedDirty(old(blocks), blocks, index, end)
      ensures size == StartOf(old(blocks), end) - StartOf(old(blocks), index)
      ensures exceeds == (offset + length >= End(old(blocks)))
      ensures appendOnly == (offset >= End(old(blocks)))
      ensures appendOnly ==> index == end
      ensures exceeds ==> end == |blocks|
      ensures !appendOnly ==> index < end && Holds(old(blocks)[index], offset) && size > 0
      ensures !appendOnly ==> old(blocks)[end - 1].start <= offset + length
      ensures end < |blocks| ==> offset + length < old(blocks)[end].start
    {
      var found;
      found, index := BinarySearch(offset);
      if !found { return index, 0, true, true, |blocks|; }
      size, end := MarkRun(index, offset, length);
      appendOnly := false;
      exceeds := offset + length >= blocks[|blocks| - 1].end;
      TiledOrders(old(blocks));
    }
  }
}
