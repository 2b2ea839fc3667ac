/** Positional write and truncation of a blob through its block list. Every storage call may fail. */
module BlockBlob {
  import opened FlatFile
  import opened BlobStore
  import opened BlockList
  import opened BlockEdit

  const DEFAULT_BLOCK: nat := 16 * 1024 * 1024
  const ONE_GB: nat := 1024 * 1024 * 1024

  /** Limits fixed by the storage SDK: largest single upload, block count, and staged block. */
  datatype Limits = Limits(maxUpload: nat, maxBlocks: nat, maxStage: nat)

  /** Ids name one block each, and no block is empty. */
  ghost predicate Sturdy(b: Blob)
  {
    DistinctIds(b.committed) && forall i :: 0 <= i < |b.committed| ==> b.committed[i].data != []
  }

  /** A blob whose blocks can be edited in place, any of them: no other uncommitted copy waits under a committed
      id. */
  ghost predicate Editable(b: Blob)
  {
    Sturdy(b) && forall i :: 0 <= i < |b.committed| ==> NoOther(b, i)
  }

  /** File position where committed block k starts. */
  function Begin(cs: seq<StoredBlock>, k: nat): nat
    requires k <= |cs|
  {
    |Flatten(cs[..k])|
  }

  /** A write stages committed block i again: it starts at or before the end of the write and ends after its
      offset. */
  predicate Touches(cs: seq<StoredBlock>, i: nat, offset: int, length: int)
    requires i < |cs|
  {
    Begin(cs, i) <= offset + length && offset < Begin(cs, i + 1)
  }

  /** What a write asks of the blob: no other copy waits under an id that the write does not stage again. */
  ghost predicate Writable(b: Blob, offset: int, length: int)
  {
    Sturdy(b) && forall i :: 0 <= i < |b.committed| && !Touches(b.committed, i, offset, length) ==> NoOther(b, i)
  }

  /** What a truncation asks of the blob: no other copy waits under the id of a block that it keeps whole. */
  ghost predicate Cuttable(b: Blob, size: int)
  {
    Sturdy(b) && forall i :: 0 <= i < |b.committed| && Begin(b.committed, i + 1) <= size ==> NoOther(b, i)
  }

  ghost predicate Below(cs: seq<StoredBlock>, next: Id)
  {
    forall i :: 0 <= i < |cs| ==> cs[i].id < next
  }

  ghost predicate ListBelow(bs: seq<Block>, next: Id)
  {
    forall i :: 0 <= i < |bs| ==> bs[i].id < next
  }

  /** The list GetFileBlockOffsets returns for the committed blocks cs. */
  ghost predicate ListOf(bs: seq<Block>, cs: seq<StoredBlock>)
  {
    && |bs| == |cs|
    && (forall i :: 0 <= i < |bs| ==>
          && bs[i].id == cs[i].id && Size(bs[i]) == |cs[i].data|
          && !bs[i].dirty && !bs[i].truncated && !bs[i].removed)
    && ((forall i :: 0 <= i < |cs| ==> cs[i].data != []) ==> Tiled(bs))
  }

  /** `seen` is `was` as far as a download that may have failed could tell: a failed download of a
      whole blob may come back empty, and any other leaves some bytes zero. */
  ghost predicate Torn(was: Bytes, seen: Bytes)
  {
    seen == [] || (|seen| == |was| && forall i :: 0 <= i < |was| ==> seen[i] == was[i] || seen[i] == 0)
  }

  /** The bytes a successful Write leaves; `single` says the blob has no block list. */
  function Written(single: bool, seen: Bytes, offset: nat, data: Bytes): Bytes
  {
    if single && seen == [] then data
    else Overlay(Resized(seen, Max(|seen|, offset + |data|)), offset, data)
  }

  /** `now` is `was` extended with fresh dirty blocks up to file position `upTo`. */
  ghost predicate Grown(was: seq<Block>, now: seq<Block>, upTo: int, chosen: int, firstId: Id)
  {
    && was <= now && Tiled(now)
    && End(now) == Max(End(was), upTo)
    && forall i :: |was| <= i < |now| ==>
      && now[i].dirty && now[i].truncated && !now[i].removed
      && now[i].id == firstId + (i - |was|) && Size(now[i]) <= chosen
  }

  predicate Enough(k: nat, size: nat, length: int) { k * size >= length }

  /** That many blocks of this size, or fewer, hold that many bytes. */
  ghost predicate Room(slots: int, size: nat, length: int) { exists k: nat :: k <= slots && Enough(k, size, length) }

  /** The block size for an append of `length` bytes to a list with so many slots left: the configured one; or 16 MB;
      or else the smallest size that will do, if such a block can be staged. */
  ghost predicate Chooses(limits: Limits, blockSize: nat, slots: int, length: int, size: nat)
  {
    if blockSize > 0 then size == blockSize && Room(slots, blockSize, length)
    else if Room(slots, DEFAULT_BLOCK, length) then size == DEFAULT_BLOCK
    else size <= limits.maxStage && Room(slots, size, length) && forall s: nat :: s < size ==> !Room(slots, s, length)
  }

  /** An append that ends `span` bytes behind the last block is accepted, and what it makes can be committed. The
      program chooses by the length alone, though the append may leave a gap. */
  ghost predicate Accepted(limits: Limits, blockSize: nat, slots: int, length: int, span: int)
  {
    exists size: nat :: Chooses(limits, blockSize, slots, length, size) && Room(slots, size, span)
  }

  class BlockBlob {
    const limits: Limits
    const blockSize: nat    // configured block size, 0 when not set
    const prefix: string    // configured path prefix
    var blob: Blob          // the blob at prefix/name
    var twice: Blob         // the blob at prefix/prefix/name
    var nextId: Id
    ghost var faults: nat   // storage calls that have failed

    ghost predicate Valid()
      reads this
    {
      && Below(blob.committed, nextId) && |blob.committed| <= limits.maxBlocks
      && Below(twice.committed, nextId) && forall id :: id in twice.uncommitted ==> id < nextId
    }

    constructor (limits: Limits, blockSize: nat, prefix: string, data: Bytes)
      ensures Valid() && blob == PutBlob(data)
    {
      this.limits, this.blockSize, this.prefix := limits, blockSize, prefix;
      blob, twice, nextId, faults := PutBlob(data), PutBlob([]), 0, 0;
    }

    // ---- storage calls ----

    /** A failed call may still have staged the block. */
    method StageBlock(id: Id, data: Bytes) returns (ok: bool)
      modifies this`blob, this`faults
      ensures faults == old(faults) + (if ok then 0 else 1)
      ensures ok ==> blob == PutBlock(old(blob), id, data)
      ensures !ok ==> blob == old(blob) || blob == PutBlock(old(blob), id, data)
    {
      ok := false;
      if * {
        blob := PutBlock(blob, id, data);
        ok := *;
      }
      if !ok { faults := faults + 1; }
    }

    /** The service refuses a list that is too long or has an id it does not know. */
    method CommitBlockList(ids: seq<Id>) returns (ok: bool)
      modifies this`blob, this`faults
      ensures faults >= old(faults)
      ensures faults == old(faults) ==>
        (ok <==> |ids| <= limits.maxBlocks && forall i :: 0 <= i < |ids| ==> Known(old(blob), ids[i]))
      ensures ok ==> |ids| <= limits.maxBlocks && forall i :: 0 <= i < |ids| ==> Known(old(blob), ids[i])
      ensures ok ==> blob == PutBlockList(old(blob), ids)
      ensures !ok ==> blob == old(blob)
    {
      ok := *;
      if !ok { faults := faults + 1; }
      if ok && |ids| <= limits.maxBlocks && forall i :: 0 <= i < |ids| ==> Known(blob, ids[i]) {
        blob := PutBlockList(blob, ids);
      } else {
        ok := false;
      }
    }

    /** The SDK's buffer upload: one Put Blob when the data fits, otherwise fresh blocks of a size
        of its choice. */
    method WriteFromBuffer(data: Bytes) returns (ok: bool)
      requires Valid()
      modifies this
      ensures Valid() && twice == old(twice)
      ensures ok ==> Content(blob) == data && Editable(blob)
      ensures !ok ==> blob == old(blob)
      ensures faults == old(faults) + (if ok then 0 else 1)
    {
      ok := *;
      var size: nat :| size > 0;
      var blocks := Chunks(data, size, nextId);
      if !ok || (|data| > limits.maxUpload && |blocks| > limits.maxBlocks) {
        faults := faults + 1;
        return false;
      }
      if |data| <= limits.maxUpload {
        blob := PutBlob(data);
      } else {
        ChunksRejoin(data, size, nextId);
        blob := Blob([], blocks, map[]);
        nextId := nextId + |blocks|;
      }
    }

    /** Downloads [offset, offset + count) into the front of the buffer; count 0 means to the end. */
    method ReadInBuffer(offset: nat, count: nat, buffer: Bytes) returns (ok: bool, out: Bytes)
      modifies this`faults
      ensures faults >= old(faults)
      ensures faults == old(faults) ==>
        var n := if count == 0 then |Content(blob)| - offset else count;
        (ok <==> 0 <= n <= |buffer| && offset + n <= |Content(blob)|)
      ensures ok ==> var n := if count == 0 then |Content(blob)| - offset else count;
        && 0 <= n <= |buffer| && offset + n <= |Content(blob)|
        && out == Overlay(buffer, 0, Content(blob)[offset..offset + n])
      ensures |out| == |buffer|
      ensures !ok ==> forall i :: 0 <= i < |out| ==>
        out[i] == buffer[i] || (offset + i < |Content(blob)| && out[i] == Content(blob)[offset + i])
    {
      hide Content;
      var n := if count == 0 then |Content(blob)| - offset else count;
      ok := *;
      if !ok { faults := faults + 1; }
      out := buffer;
      if 0 <= n <= |buffer| && offset + n <= |Content(blob)| {
        var got := Content(blob)[offset..offset + n];
        if ok {
          out := Overlay(buffer, 0, got);
        } else {
          var some: nat :| some <= n;
          out := Overlay(buffer, 0, got[..some]);
        }
      } else {
        ok := false;
      }
    }

    method ReadBuffer() returns (ok: bool, data: Bytes)
      modifies this`faults
      ensures ok ==> data == Content(blob)
      ensures Torn(Content(blob), data)
      ensures faults >= old(faults) && (!ok ==> faults > old(faults))
    {
      if * {
        faults := faults + 1;
        return false, [];
      }
      ok, data := ReadInBuffer(0, 0, Zeros(|Content(blob)|));
      assert ok ==> Content(blob)[0..|Content(blob)|] == Content(blob);
    }

    // ---- block list ----

    method GetFileBlockOffsets() returns (ok: bool, list: BlockOffsetList)
      modifies this`faults
      ensures faults == old(faults) + (if ok then 0 else 1)
      ensures fresh(list)
      ensures ok ==> ListOf(list.blocks, blob.committed)
    {
      list := new BlockOffsetList([]);
      if * {
        faults := faults + 1;
        return false, list;
      }
      var offset: int := 0;
      for k := 0 to |blob.committed|
        invariant |list.blocks| == k && offset == End(list.blocks) && faults == old(faults)
        invariant k > 0 ==> list.blocks[0].start == 0
        invariant forall i :: 0 <= i < k ==>
          list.blocks[i].id == blob.committed[i].id && Size(list.blocks[i]) == |blob.committed[i].data|
          && !list.blocks[i].dirty && !list.blocks[i].truncated && !list.blocks[i].removed
        invariant forall i, j :: 0 <= i && j == i + 1 < k ==> list.blocks[i].end == list.blocks[j].start
      {
        var size := |blob.committed[k].data|;
        list.blocks := list.blocks + [Block(offset, offset + size, blob.committed[k].id, false, false, false, [])];
        offset := offset + size;
      }
      ok := true;
    }

    method CreateBlock(start: int, size: int) returns (b: Block)
      modifies this`nextId
      ensures b == Block(start, start + size, old(nextId), true, true, false, []) && nextId == old(nextId) + 1
    {
      b := Block(start, start + size, nextId, true, true, false, []);
      nextId := nextId + 1;
    }

    /** The loop of CreateNewBlocks. */
    method AppendBlocks(list: BlockOffsetList, upTo: int, size: nat) returns (bufferSize: int, ghost count: nat)
      requires list.blocks != [] && Tiled(list.blocks) && size > 0
      modifies this`nextId, list
      ensures Grown(old(list.blocks), list.blocks, upTo, size, old(nextId))
      ensures bufferSize == End(list.blocks) - End(old(list.blocks))
      ensures |list.blocks| == |old(list.blocks)| + count && nextId == old(nextId) + count
      ensures count > 0 ==> End(old(list.blocks)) + (count - 1) * size < upTo
      ensures End(old(list.blocks)) + count * size >= upTo
    {
      ghost var was := list.blocks;
      var last := list.blocks[|list.blocks| - 1].end;
      var i := last;
      bufferSize, count := 0, 0;
      while i < upTo
        invariant i == last + count * size && |list.blocks| == |was| + count && nextId == old(nextId) + count
        invariant count > 0 ==> last + (count - 1) * size < upTo
        invariant Grown(was, list.blocks, if count == 0 then last else Min(i, upTo), size, old(nextId))
        invariant bufferSize == End(list.blocks) - last
        decreases upTo - i
      {
        var b := CreateBlock(i, Min(size, upTo - i));
        list.blocks := list.blocks + [b];
        bufferSize := bufferSize + Size(b);
        count := count + 1;
        i := i + size;
      }
    }

    /** Appends fresh zero blocks from the end of the list up to offset + length, or refuses, exactly when no block size
        will do. The block-count check looks at `length` alone, so it bounds the list only when the append leaves
        no gap. */
    method CreateNewBlocks(list: BlockOffsetList, offset: nat, length: nat)
      returns (ok: bool, bufferSize: int, ghost chosen: nat)
      requires list.blocks != [] && Tiled(list.blocks)
      requires blockSize > 0 || |list.blocks| < limits.maxBlocks
      modifies this`nextId, list
      ensures var slots := limits.maxBlocks - |old(list.blocks)|;
        && (blockSize > 0 ==> (ok <==> Room(slots, blockSize, length)))
        && (blockSize == 0 ==> (ok <==>
              Room(slots, DEFAULT_BLOCK, length) || exists s: nat :: s <= limits.maxStage && Room(slots, s, length)))
        && (ok ==> Chooses(limits, blockSize, slots, length, chosen))
        && (ok ==>
              (|list.blocks| <= limits.maxBlocks <==> Room(slots, chosen, offset + length - End(old(list.blocks)))))
      ensures ok ==> Grown(old(list.blocks), list.blocks, offset + length, chosen, old(nextId))
      ensures ok ==> bufferSize == End(list.blocks) - End(old(list.blocks))
      ensures nextId == old(nextId) + |list.blocks| - |old(list.blocks)|
      ensures !ok ==> list.blocks == old(list.blocks)
    {
      hide Room, Chooses, Grown;
      var size, count := blockSize, |list.blocks|;
      ghost var slots := limits.maxBlocks - count;
      ok, bufferSize, chosen := true, 0, 0;
      if size == 0 {
        size := DEFAULT_BLOCK;
        RoomByCount(length, size, slots);
        if count + CeilDiv(length, size) > limits.maxBlocks {
          SmallestRoom(length, slots, limits.maxStage);
          size := CeilDiv(length, limits.maxBlocks - count);
          ok := size <= limits.maxStage;
        }
      } else {
        RoomByCount(length, size, slots);
        ok := count + CeilDiv(length, size) <= limits.maxBlocks;
      }
      Chosen(limits, blockSize, slots, length, size, ok);
      if !ok { return; }
      ghost var added;
      bufferSize, added := AppendBlocks(list, offset + length, size);
      chosen := size;
      LeastCount(added, size, offset + length - End(old(list.blocks)), slots);
    }

    /** Stages each dirty block with its slice of the buffer, in order, then commits the whole list. */
    method StageAndCommitModifiedBlocks(buffer: Bytes, list: BlockOffsetList)
      returns (ok: bool, ghost pieces: seq<Bytes>)
      requires DirtySize(list.blocks) <= |buffer|
      requires forall i :: 0 <= i < |list.blocks| ==> list.blocks[i].start <= list.blocks[i].end
      requires DistinctIds(blob.committed) && DistinctBlocks(list.blocks) && CleanBlocksCommitted(list.blocks, blob)
      requires Valid() && ListBelow(list.blocks, nextId)
      modifies this`blob, this`faults
      ensures Valid()
      ensures faults >= old(faults) && (faults == old(faults) ==> (ok <==> |list.blocks| <= limits.maxBlocks))
      ensures SlicesOf(pieces, list.blocks, buffer)
      ensures ok ==> Committed(list.blocks, pieces, old(blob).committed, blob.committed) && blob.uncommitted == map[]
      ensures ok ==> |list.blocks| <= limits.maxBlocks
      ensures !ok ==> Content(blob) == old(Content(blob)) && blob.committed == old(blob.committed)
      ensures !ok ==> CleanBlocksCommitted(list.blocks, blob)
    {
      hide DirtySize, Flatten, SlicesOf, Committed, Find;
      var bs := list.blocks;
      pieces := MakeSlices(bs, buffer);
      EmptyPrefix(bs);
      var at, ids := 0, [];
      for k := 0 to |bs|
        invariant at == DirtySize(bs[..k]) && ids == IdList(bs)[..k]
        invariant blob.committed == old(blob.committed) && blob.single == old(blob.single)
        invariant Staged(bs, pieces, k, blob) && faults == old(faults)
      {
        ids := ids + [bs[k].id];
        StageOne(bs, pieces, k, blob);
        NextSlice(bs, buffer, pieces, k);
        if bs[k].dirty {
          ok := StageBlock(bs[k].id, buffer[at..at + Size(bs[k])]);
          if !ok { return; }
          at := at + Size(bs[k]);
        }
      }
      assert ids == IdList(bs);
      CommitStaged(bs, pieces, blob);
      ok := CommitBlockList(ids);
    }

    // ---- write ----

    /** Write to a blob that has no block list. */
    method WriteSingle(offset: nat, data: Bytes) returns (ok: bool, fetched: bool, ghost seen: Bytes)
      requires Valid()
      modifies this
      ensures Valid()
      ensures Torn(old(Content(blob)), seen) && (fetched ==> seen == old(Content(blob)))
      ensures ok ==> Content(blob) == Written(true, seen, offset, data) && Editable(blob)
      ensures !ok ==> blob == old(blob)
      ensures faults >= old(faults) && (faults == old(faults) ==> fetched && ok)
    {
      hide Flatten, Torn, Written, Editable;
      var oldData;
      fetched, oldData := ReadBuffer();
      seen := oldData;
      var buffer := SingleBuffer(oldData, offset, data);
      ok := WriteFromBuffer(buffer);
    }

    /** The new content of a blob without block list. */
    static method SingleBuffer(oldData: Bytes, offset: nat, data: Bytes) returns (buffer: Bytes)
      ensures buffer == Written(true, oldData, offset, data)
    {
      if |oldData| >= offset + |data| {
        buffer := Overlay(oldData, offset, data);
      } else if |oldData| > 0 {
        buffer := Zeros(offset + |data|);
        if offset != 0 { buffer := Resized(oldData, offset + |data|); }
        buffer := Overlay(buffer, offset, data);
      } else {
        buffer := data;
      }
    }

    /** The blocks a write touches, as one dirty run [index, end). */
    method MarkTouched(list: BlockOffsetList, offset: nat, length: nat)
      returns (index: nat, size: nat, exceeds: bool, appendOnly: bool, ghost end: nat)
      requires Writable(blob, offset, length) && ListOf(list.blocks, blob.committed) && blob.committed != []
      modifies list
      ensures Planned(list.blocks, blob, index, end) && |list.blocks| == |blob.committed|
      ensures RunTouched(blob.committed, index, end, offset, length)
      ensures forall i :: 0 <= i < |list.blocks| ==> list.blocks[i].id == blob.committed[i].id
      ensures End(list.blocks) == |Content(blob)|
      ensures appendOnly == (offset >= |Content(blob)|) && exceeds == (offset + length >= |Content(blob)|)
      ensures size == StartOf(list.blocks, end) - StartOf(list.blocks, index)
      ensures exceeds ==> end == |list.blocks|
      ensures appendOnly ==> index == end
      ensures !appendOnly ==> index < end && Holds(list.blocks[index], offset) && size > 0
      ensures end < |list.blocks| ==> offset + length < list.blocks[end].start
    {
      ghost var was := list.blocks;
      CommittedPrefix(was, blob.committed, |was|);
      assert blob.committed[..|was|] == blob.committed;
      index, size, exceeds, appendOnly, end := list.FindBlocksToModify(offset, length);
      FoundTouched(was, blob.committed, index, end, offset, length);
      MarkedRun(was, list.blocks, blob, index, end, offset, length);
    }

    /** Appends the blocks a write past the end needs to the run it touches. */
    method ExtendRun(list: BlockOffsetList, offset: nat, length: nat, ghost index: nat) returns (ok: bool, added: nat)
      requires Valid() && blob.committed != [] && |list.blocks| == |blob.committed|
      requires Planned(list.blocks, blob, index, |list.blocks|)
      requires forall i :: 0 <= i < |list.blocks| ==> list.blocks[i].id == blob.committed[i].id
      requires End(list.blocks) == |Content(blob)| <= offset + length && StartOf(list.blocks, index) <= offset
      requires blockSize > 0 || |list.blocks| < limits.maxBlocks
      modifies this`nextId, list
      ensures Valid()
      ensures ok ==> Planned(list.blocks, blob, index, |list.blocks|) && ListBelow(list.blocks, nextId)
      ensures ok ==> Covers(list.blocks, blob.committed, index, |list.blocks|, offset, length,
                            |Content(blob)| - StartOf(old(list.blocks), index), added)
      ensures ok && |list.blocks| <= limits.maxBlocks <==>
        Accepted(limits, blockSize, limits.maxBlocks - |blob.committed|, length, offset + length - |Content(blob)|)
    {
      hide Room, Chooses, Accepted, Covers;
      ghost var marked, chosen := list.blocks, 0;
      assert Tiled(marked) && index <= |marked|;
      hide Planned, Tiled, Grown, StartOf;
      var more;
      ok, more, chosen := CreateNewBlocks(list, offset, length);
      AcceptedWhen(limits, blockSize, limits.maxBlocks - |marked|, length, offset + length - End(marked), chosen, ok);
      added := 0;
      if ok {
        added := more;
        GrownPlan(marked, list.blocks, blob, index, offset, length, chosen, old(nextId));
      }
    }

    /** Finds the blocks a write touches and appends the blocks it needs beyond them: afterwards the
        dirty blocks are one run that covers the write. */
    method PlanWrite(list: BlockOffsetList, offset: nat, length: nat)
      returns (ok: bool, index: nat, oldSize: nat, newSize: nat, appendOnly: bool, ghost hi: nat)
      requires Valid() && Writable(blob, offset, length) && ListOf(list.blocks, blob.committed) && blob.committed != []
      requires length > 0 || offset != |Content(blob)|
      requires blockSize > 0 || |blob.committed| < limits.maxBlocks || offset + length < |Content(blob)|
      modifies this`nextId, list
      ensures Valid()
      ensures ok ==> RunTouched(blob.committed, index, hi, offset, length)
      ensures ok ==> Planned(list.blocks, blob, index, hi) && ListBelow(list.blocks, nextId) && index < |list.blocks|
      ensures ok ==> Covers(list.blocks, blob.committed, index, hi, offset, length, oldSize, newSize)
      ensures ok ==> appendOnly == (offset >= |Content(blob)|) && (appendOnly <==> oldSize == 0)
      ensures ok && |list.blocks| <= limits.maxBlocks <==> HasRoom(WriteAt(offset, Zeros(length)))
    {
      hide Flatten, Writable, Begin, Touches, ListOf, DistinctBlocks, CleanBlocksCommitted, Accepted;
      var exceeds;
      index, oldSize, exceeds, appendOnly, hi := MarkTouched(list, offset, length);
      ok, newSize := true, 0;
      if exceeds {
        ok, newSize := ExtendRun(list, offset, length, index);
        hi := |list.blocks|;
      } else {
        MarkedCovers(list.blocks, blob.committed, index, hi, offset, length);
      }
    }

    /** The buffer for a run that starts at `start`: its committed bytes, as far as the download
        delivered them, then zeros for its new blocks. */
    method FetchRun(start: nat, oldSize: nat, newSize: nat) returns (fetched: bool, buffer: Bytes)
      requires start + oldSize <= |Content(blob)| && (newSize > 0 ==> start + oldSize == |Content(blob)|)
      modifies this`faults
      ensures |buffer| == oldSize + newSize && buffer == buffer[..oldSize] + Zeros(newSize)
      ensures fetched ==> buffer[..oldSize] == Content(blob)[start..start + oldSize]
      ensures forall i :: 0 <= i < oldSize ==> buffer[i] == Content(blob)[start + i] || buffer[i] == 0
      ensures faults >= old(faults) && (!fetched ==> faults > old(faults))
    {
      fetched, buffer := true, Zeros(oldSize + newSize);
      if oldSize > 0 {
        fetched, buffer := ReadInBuffer(start, oldSize, buffer);
      }
    }

    /** Stages and commits a planned run whose new bytes are the buffer. */
    method CommitRun(buffer: Bytes, list: BlockOffsetList, ghost lo: nat, ghost hi: nat) returns (ok: bool)
      requires Valid() && Sturdy(blob) && ListBelow(list.blocks, nextId) && blob.committed != []
      requires Planned(list.blocks, blob, lo, hi)
      requires |buffer| == DirtySize(list.blocks) == StartOf(list.blocks, hi) - StartOf(list.blocks, lo)
      modifies this`blob, this`faults
      ensures Valid()
      ensures faults >= old(faults) && (faults == old(faults) ==> (ok <==> |list.blocks| <= limits.maxBlocks))
      ensures ok ==> Editable(blob) && |list.blocks| <= limits.maxBlocks
      ensures ok ==> Spliced(list.blocks, old(blob), blob, buffer, lo, hi)
      ensures !ok ==> Content(blob) == old(Content(blob)) && blob.committed == old(blob.committed)
      ensures !ok ==> Planned(list.blocks, blob, lo, hi)
    {
      ghost var was, pieces := blob, [];
      ok, pieces := StageAndCommitModifiedBlocks(buffer, list);
      if ok { CommitKeepsEditable(list.blocks, buffer, pieces, was, blob, lo, hi); }
    }

    /** Write to a blob that has a block list. */
    method WriteBlocks(list: BlockOffsetList, offset: nat, data: Bytes)
      returns (ok: bool, fetched: bool, ghost seen: Bytes)
      requires Valid() && Writable(blob, offset, |data|) && ListOf(list.blocks, blob.committed) && blob.committed != []
      requires data != [] || offset != |Content(blob)|
      requires blockSize > 0 || |blob.committed| < limits.maxBlocks || offset + |data| < |Content(blob)|
      modifies this, list
      ensures Valid()
      ensures Torn(old(Content(blob)), seen) && (fetched ==> seen == old(Content(blob)))
      ensures ok ==> Content(blob) == Written(false, seen, offset, data) && Editable(blob)
      ensures !ok ==> Content(blob) == old(Content(blob)) && blob.committed == old(blob.committed)
      ensures !ok ==> Writable(blob, offset, |data|)
      ensures faults >= old(faults) && (!old(HasRoom(WriteAt(offset, data))) ==> !ok)
      ensures faults == old(faults) ==> fetched && (ok <==> old(HasRoom(WriteAt(offset, data))))
    {
      hide Flatten, Written, DistinctIds, Begin, Accepted, ListOf, DistinctBlocks, CleanBlocksCommitted, DirtyRun;
      ghost var c := Content(blob);
      seen, fetched := c, true;
      var index, oldSize, newSize, appendOnly;
      ghost var hi;
      ok, index, oldSize, newSize, appendOnly, hi := PlanWrite(list, offset, |data|);
      if !ok { return; }
      var start := list.blocks[index].start;
      RunInside(list.blocks, blob, index, hi, offset, |data|, oldSize, newSize);
      var buffer;
      fetched, buffer := FetchRun(start, oldSize, newSize);
      seen := SpliceIsWrite(c, start, oldSize, newSize, buffer, fetched, offset, data);
      buffer := Overlay(buffer, offset - start, data);
      ok := CommitRun(buffer, list, index, hi);
      if !ok { StillWritable(list.blocks, old(blob), blob, index, hi, offset, |data|); }
    }

    /** Nothing a failed edit left behind gets in the way of this one. */
    ghost predicate Clear(e: Edit)
      reads this
    {
      blob.committed != [] ==>
        match e
        case WriteAt(offset, data) => Writable(blob, offset, |data|)
        case TruncateTo(size) => size >= limits.maxUpload && size != 0 && Content(blob) != [] ==> Cuttable(blob, size)
    }

    /** When the edit appends to the block list, a block size is configured or the list has room to choose one;
        and it is not the empty write exactly at the end. */
    predicate CanChoose(e: Edit)
      reads this
    {
      blob.committed != [] ==>
        match e
        case WriteAt(offset, data) =>
          && (blockSize > 0 || |blob.committed| < limits.maxBlocks || offset + |data| < |Content(blob)|)
          && (data != [] || offset != |Content(blob)|)
        case TruncateTo(size) =>
          size >= limits.maxUpload && Content(blob) != [] ==>
            blockSize > 0 || |blob.committed| < limits.maxBlocks || size <= |Content(blob)|
    }

    /** When the edit appends to the block list, the append is accepted and the longer list can be committed; and an
        empty file is blown up past 1 GB only without prefix and within the number of blocks. */
    ghost predicate HasRoom(e: Edit)
      reads this
    {
      var slots := limits.maxBlocks - |blob.committed|;
      match e
      case WriteAt(offset, data) =>
        var span := offset + |data| - |Content(blob)|;
        blob.committed != [] && span >= 0 ==> Accepted(limits, blockSize, slots, |data|, span)
      case TruncateTo(size) =>
        var more := size - |Content(blob)|;
        if Content(blob) == [] then size > ONE_GB ==> prefix == "" && Room(limits.maxBlocks, DEFAULT_BLOCK, size)
        else blob.committed != [] && size >= limits.maxUpload && more > 0 ==>
          Accepted(limits, blockSize, slots, more, more)
    }

    /** A write that succeeds leaves the bytes `Written` says, of a blob whose old bytes are exactly
        those a successful download delivered; one that fails leaves the content alone and can be made again.
        Unless a storage call fails, the download delivers all, and the write fails exactly when there is no room. */
    method Write(offset: nat, data: Bytes) returns (ok: bool, fetched: bool, ghost seen: Bytes)
      requires Valid() && Clear(WriteAt(offset, data)) && CanChoose(WriteAt(offset, data))
      modifies this
      ensures Valid()
      ensures Torn(old(Content(blob)), seen) && (fetched ==> seen == old(Content(blob)))
      ensures ok ==> Content(blob) == Written(old(blob.committed) == [], seen, offset, data) && Editable(blob)
      ensures !ok ==> Content(blob) == old(Content(blob)) && blob.committed == old(blob.committed)
      ensures !ok ==> Clear(WriteAt(offset, data)) && CanChoose(WriteAt(offset, data))
      ensures faults >= old(faults) && (!old(HasRoom(WriteAt(offset, data))) ==> !ok)
      ensures faults == old(faults) ==> fetched && (ok <==> old(HasRoom(WriteAt(offset, data))))
    {
      hide Accepted;
      var list;
      ok, list := GetFileBlockOffsets();
      seen, fetched := Content(blob), true;
      if !ok { return; }
      if list.blocks == [] {
        ok, fetched, seen := WriteSingle(offset, data);
      } else {
        ok, fetched, seen := WriteBlocks(list, offset, data);
      }
    }

    // ---- truncate ----

    /** Stages every dirty block of the list (zeros for a truncated one) and commits the list when
        anything was staged or removed. */
    method StageAndCommit(list: BlockOffsetList) returns (ok: bool)
      requires Valid() && ListBelow(list.blocks, nextId) && DistinctIds(blob.committed)
      requires DistinctBlocks(list.blocks) && CleanBlocksCommitted(list.blocks, blob)
      modifies this`blob, this`faults, list
      ensures Valid()
      ensures faults >= old(faults) && (Pending(old(list.blocks)) && |old(list.blocks)| > limits.maxBlocks ==> !ok)
      ensures faults == old(faults) ==>
        (ok <==> !(Pending(old(list.blocks)) && |old(list.blocks)| > limits.maxBlocks))
      ensures ok && Pending(old(list.blocks)) ==>
        Committed(old(list.blocks), Payloads(old(list.blocks)), old(blob.committed),
                  blob.committed) && blob.uncommitted == map[]
      ensures ok && !Pending(old(list.blocks)) ==> blob == old(blob)
      ensures ok ==> |list.blocks| == |old(list.blocks)| && forall i :: 0 <= i < |list.blocks| ==>
        list.blocks[i] == old(list.blocks)[i].(dirty := false, truncated := false)
      ensures !ok ==> Content(blob) == old(Content(blob)) && blob.committed == old(blob.committed)
      ensures !ok ==> CleanBlocksCommitted(old(list.blocks), blob)
    {
      hide Flatten, Committed, DistinctIds, DistinctBlocks, CleanBlocksCommitted;
      ghost var was := list.blocks;
      ghost var pieces := Payloads(was);
      var staged, ids, n := false, [], |list.blocks|;
      for k := 0 to n
        invariant |list.blocks| == n && ids == IdList(was)[..k]
        invariant forall i :: 0 <= i < n ==>
          list.blocks[i] == if i < k then was[i].(dirty := false, truncated := false) else was[i]
        invariant staged <==> exists i :: 0 <= i < k && (was[i].dirty || was[i].removed)
        invariant blob.committed == old(blob.committed) && blob.single == old(blob.single)
        invariant Staged(was, pieces, k, blob)
        invariant !staged ==> blob == old(blob)
        invariant faults == old(faults)
      {
        var blk := list.blocks[k];
        ids := ids + [blk.id];
        StageOne(was, pieces, k, blob);
        var data := if blk.truncated then Zeros(Max(0, Size(blk))) else blk.data;
        blk := blk.(truncated := false);
        if blk.dirty {
          ok := StageBlock(blk.id, data);
          if !ok { return; }
          staged := true;
          blk := blk.(dirty := false);
        } else if blk.removed {
          staged := true;
        }
        list.blocks := list.blocks[k := blk];
      }
      assert ids == IdList(was);
      ok := true;
      if staged {
        CommitStaged(was, pieces, blob);
        ok := CommitBlockList(ids);
      }
    }

    /** Cuts the list at `size`: drops the blocks after it and, when it falls inside a block, shrinks
        that block and fetches what remains of it. The download's failure is only logged. */
    method RemoveBlocks(list: BlockOffsetList, size: nat) returns (fetched: bool, ghost index: nat)
      requires ListOf(list.blocks, blob.committed) && Tiled(list.blocks)
      requires 0 < size < End(list.blocks) == |Content(blob)|
      modifies list, this`faults
      ensures faults >= old(faults) && (!fetched ==> faults > old(faults))
      ensures index < |old(list.blocks)| && CutAt(old(list.blocks), list.blocks, index, size)
      ensures CutPiece(old(list.blocks), list.blocks, Content(blob), index, size, fetched)
    {
      hide Content;
      var found, at := list.BinarySearch(size);
      if list.blocks[at].start == size { at := at - 1; }
      fetched := true;
      if list.blocks[at].end > size {
        var blk := list.blocks[at].(end := size);
        StartsGrow(list.blocks, 0, at);
        var ok, data := ReadInBuffer(blk.start, size - blk.start, Zeros(size - blk.start));
        fetched := ok;
        list.blocks := list.blocks[at := blk.(data := data, dirty := true)];
      }
      list.blocks := list.blocks[at := list.blocks[at].(removed := true)];
      list.blocks := list.blocks[..at + 1];
      index := at;
    }

    /** Truncation of a blob with a block list to a smaller size. */
    method ShrinkBlocks(list: BlockOffsetList, size: nat) returns (ok: bool, fetched: bool)
      requires Valid() && Cuttable(blob, size) && ListOf(list.blocks, blob.committed) && blob.committed != []
      requires 0 < size < |Content(blob)|
      modifies this`blob, this`faults, list
      ensures Valid()
      ensures faults >= old(faults) && (faults == old(faults) ==> fetched && ok)
      ensures ok ==> Editable(blob) && |Content(blob)| == size && Torn(old(Content(blob))[..size], Content(blob))
      ensures ok && fetched ==> Content(blob) == old(Content(blob))[..size]
      ensures !ok ==> Content(blob) == old(Content(blob)) && blob.committed == old(blob.committed)
      ensures !ok ==> Cuttable(blob, size)
    {
      ghost var was, cs := list.blocks, blob.committed;
      CommittedPrefix(was, cs, |cs|);
      assert cs[..|cs|] == cs;
      ghost var index;
      fetched, index := RemoveBlocks(list, size);
      ghost var cut := list.blocks;
      CutList(was, cut, blob, index, size);
      ok := StageAndCommit(list);
      if ok {
        AfterCut(was, cut, old(blob), blob, index, size, fetched);
      } else {
        StillCuttable(was, cut, old(blob), blob, index, size);
      }
    }

    /** There is room for this blob to grow to that size. */
    ghost predicate Grows(b: Blob, size: nat)
    {
      var more := size - |Content(b)|;
      Accepted(limits, blockSize, limits.maxBlocks - |b.committed|, more, more)
    }

    /** Truncation of a blob with a block list to a larger size. */
    method GrowBlocks(list: BlockOffsetList, size: nat) returns (ok: bool)
      requires Valid() && Editable(blob) && ListOf(list.blocks, blob.committed) && blob.committed != []
      requires |Content(blob)| < size && (blockSize > 0 || |blob.committed| < limits.maxBlocks)
      modifies this, list
      ensures Valid()
      ensures ok ==> Content(blob) == FTruncate(old(Content(blob)), size)
      ensures Editable(blob)
      ensures !ok ==> Content(blob) == old(Content(blob)) && blob.committed == old(blob.committed)
      ensures faults >= old(faults) && (faults == old(faults) ==> (ok <==> Grows(old(blob), size)))
      ensures !Grows(old(blob), size) ==> !ok
    {
      hide Accepted, Flatten, Grown, ListOf, DistinctBlocks, CleanBlocksCommitted, Pending, Editable;
      ghost var was, b, chosen := list.blocks, blob, 0;
      ok, chosen := AppendZeros(list, size);
      if !ok { return; }
      ghost var now := list.blocks;
      ok := StageAndCommit(list);
      if ok { AfterGrow(was, now, b, blob, size, chosen, old(nextId)); } else { StillEditable(was, now, b, blob); }
    }

    /** Appends the blocks a truncation to a larger size needs. */
    method AppendZeros(list: BlockOffsetList, size: nat) returns (ok: bool, ghost chosen: nat)
      requires Valid() && Editable(blob) && ListOf(list.blocks, blob.committed) && blob.committed != []
      requires |Content(blob)| < size && (blockSize > 0 || |blob.committed| < limits.maxBlocks)
      modifies this`nextId, list
      ensures Valid()
      ensures ok ==> Grown(old(list.blocks), list.blocks, size, chosen, old(nextId)) && ListBelow(list.blocks, nextId)
      ensures ok ==> DistinctBlocks(list.blocks) && CleanBlocksCommitted(list.blocks, blob) && Pending(list.blocks)
      ensures ok ==> End(old(list.blocks)) <= size && old(list.blocks) <= list.blocks && DistinctIds(blob.committed)
      ensures ok && |list.blocks| <= limits.maxBlocks <==> Grows(blob, size)
    {
      hide Room, Chooses, Accepted, DistinctBlocks, CleanBlocksCommitted;
      hide Editable, ListOf, Tiled, Grown, ListBelow, Pending, Flatten;
      ghost var was, cs := list.blocks, blob.committed;
      EditableList(was, blob);
      var added, last := 0, list.blocks[|list.blocks| - 1].end;
      ok, added, chosen := CreateNewBlocks(list, last, size - |Content(blob)|);
      AcceptedWhen(limits, blockSize, limits.maxBlocks - |cs|, size - last, size - last, chosen, ok);
      if ok { GrownList(was, list.blocks, blob, size, chosen, old(nextId)); }
    }

    /** Truncation of a blob with a block list. */
    method TruncateBlocks(list: BlockOffsetList, size: nat, originalSize: nat) returns (ok: bool, stored: bool)
      requires Valid() && Cuttable(blob, size) && ListOf(list.blocks, blob.committed) && blob.committed != []
      requires 0 < size && 0 < originalSize == |Content(blob)|
      requires blockSize > 0 || |blob.committed| < limits.maxBlocks || size <= |Content(blob)|
      modifies this, list
      ensures Valid() && (stored ==> ok) && (ok ==> Editable(blob))
      ensures stored ==> Content(blob) == FTruncate(old(Content(blob)), size)
      ensures ok && !stored ==>
        |Content(blob)| == size < |old(Content(blob))| && Torn(old(Content(blob))[..size], Content(blob))
      ensures !ok ==> Content(blob) == old(Content(blob)) && blob.committed == old(blob.committed)
      ensures !ok ==> Cuttable(blob, size)
      ensures faults >= old(faults) && (!(size > originalSize ==> Grows(old(blob), size)) ==> !ok)
      ensures faults == old(faults) ==> ok == stored == (size > originalSize ==> Grows(old(blob), size))
    {
      hide Flatten, Begin, ListOf, DistinctIds, NoOther, Accepted;
      if size < originalSize {
        ok, stored := ShrinkBlocks(list, size);
        stored := stored && ok;
      } else {
        WholeKept(blob, size);
        if size > originalSize {
          ok := GrowBlocks(list, size);
        } else {
          CleanList(list.blocks, blob);
          ok := StageAndCommit(list);
          if !ok { CleanCommitted(old(list.blocks), old(blob), blob); }
        }
        stored := ok;
      }
    }

    /** Stages one zero block, and at the end a shorter one, and returns the id list that spells
        `size` zero bytes out of them. */
    method StageZeros(size: nat) returns (ok: bool, ids: seq<Id>)
      requires Valid() && size > ONE_GB
      modifies this`blob, this`nextId, this`faults
      ensures Valid() && Content(blob) == old(Content(blob)) && blob.committed == old(blob.committed)
      ensures faults == old(faults) + (if ok then 0 else 1)
      ensures ok ==> (|ids| - 1) * DEFAULT_BLOCK < size <= |ids| * DEFAULT_BLOCK
      ensures ok ==> |ids| > 1 && ids[0] == ids[1] && forall i :: 0 <= i < |ids| ==> old(nextId) <= ids[i] < nextId
      ensures ok ==> SpellsZeros(blob, ids, size)
    {
      var left, blkSize, id, i := size, DEFAULT_BLOCK, nextId, 0;
      nextId := nextId + 1;
      ids := [];
      while left > 0
        invariant blob.committed == old(blob.committed) && blob.single == old(blob.single)
        invariant 0 <= left <= size && |ids| == i && nextId > id >= old(nextId) && Valid()
        invariant forall k :: 0 <= k < |ids| ==> old(nextId) <= ids[k] < nextId
        invariant SpellsZeros(blob, ids, size - left)
        invariant left > 0 ==> blkSize == DEFAULT_BLOCK && left == size - i * DEFAULT_BLOCK
        invariant left > 0 && i > 0 ==> id in blob.uncommitted && blob.uncommitted[id] == Zeros(DEFAULT_BLOCK)
        invariant left > 0 ==> forall k :: 0 <= k < |ids| ==> ids[k] == id
        invariant i <= 2 ==> left == size - i * DEFAULT_BLOCK
        invariant left == 0 ==> (i - 1) * DEFAULT_BLOCK < size <= i * DEFAULT_BLOCK
        invariant faults == old(faults)
        invariant i > 1 ==> ids[0] == ids[1]
        decreases left
      {
        if i == 0 || left < blkSize {
          if left < blkSize {
            blkSize, id := left, nextId;
            nextId := nextId + 1;
          }
          ghost var before := blob;
          ok := StageBlock(id, Zeros(blkSize));
          if !ok { return; }
          StageKeepsZeros(before, ids, size - left, id, Zeros(blkSize));
        }
        SpellMore(blob, ids, size - left, id, blkSize);
        ids := ids + [id];
        left, i := left - blkSize, i + 1;
      }
      ok := true;
    }

    /** Truncation from or to the empty file. A size above 1 GB is spelled out of repeated zero
        blocks and committed under the prefix joined twice; below that the upload's error is lost. */
    method TruncateEmpty(size: nat) returns (ok: bool, stored: bool)
      requires Valid()
      modifies this
      ensures Valid()
      ensures stored ==> ok && Content(blob) == Zeros(size)
      ensures !stored ==> Content(blob) == old(Content(blob)) && (ok <==> size <= ONE_GB)
      ensures !stored ==> blob.committed == old(blob.committed)
      ensures size <= ONE_GB ==> if stored then Editable(blob) else blob == old(blob)
      ensures size > ONE_GB && prefix != "" ==> !stored
      ensures size > ONE_GB && stored ==> !DistinctIds(blob.committed)
      ensures faults >= old(faults)
      ensures faults == old(faults) ==>
        (stored <==> (size > ONE_GB ==> prefix == "" && Room(limits.maxBlocks, DEFAULT_BLOCK, size)))
      ensures size > ONE_GB && !Room(limits.maxBlocks, DEFAULT_BLOCK, size) ==> !stored
    {
      hide Room;
      if size > ONE_GB {
        var ids;
        ok, ids := StageZeros(size);
        stored := false;
        if !ok { return; }
        LeastCount(|ids|, DEFAULT_BLOCK, size, limits.maxBlocks);
        if prefix == "" {
          ghost var staged := blob;
          ok := CommitBlockList(ids);
          if ok {
            stored := true;
            CommitZeros(staged, ids, size);
          }
        } else {
          ok := CommitTwice(ids);
        }
      } else {
        var uploaded := WriteFromBuffer(Zeros(size));
        ok, stored := true, uploaded;
      }
    }

    /** The same commit sent to the blob at prefix/prefix/name, which knows none of the fresh ids. */
    method CommitTwice(ids: seq<Id>) returns (ok: bool)
      requires Valid() && ids != []
      requires forall i :: 0 <= i < |ids| ==> !Known(twice, ids[i])
      ensures !ok
    {
      ok := forall i :: 0 <= i < |ids| ==> Known(twice, ids[i]);
      assert !Known(twice, ids[0]);
    }

    method HandleSmallFile(size: nat, originalSize: nat) returns (ok: bool, data: Bytes)
      requires size > 0 && originalSize == |Content(blob)|
      modifies this`faults
      ensures faults >= old(faults) && (!ok ==> faults > old(faults))
      ensures ok ==> data == FTruncate(Content(blob), size)
    {
      ok, data := ReadInBuffer(0, if size > originalSize then 0 else size, Zeros(size));
    }

    /** `stored` says that every storage call the truncation made succeeded. Only two failures can
        hide behind a reported success: a lost upload error when truncating from or to the empty
        file, which leaves the content alone, and a lost download error inside the block that is
        cut, which leaves some of its bytes zero. One success hides behind a reported failure: a failed
        attribute lookup does not keep a truncation to nothing from being carried out. Unless a storage call
        fails, the truncation succeeds exactly when there is room. */
    method TruncateFile(size: nat) returns (ok: bool, stored: bool)
      requires Valid()
      requires Clear(TruncateTo(size)) && CanChoose(TruncateTo(size))
      modifies this
      ensures Valid()
      ensures ok && stored ==> Content(blob) == FTruncate(old(Content(blob)), size)
      ensures ok && !stored ==>
        if size == 0 || old(Content(blob)) == [] then size <= ONE_GB && Content(blob) == old(Content(blob))
        else |Content(blob)| == size < |old(Content(blob))| && Torn(old(Content(blob))[..size], Content(blob))
      ensures !ok ==> if stored then size == 0 && Content(blob) == [] else Content(blob) == old(Content(blob))
      ensures size > ONE_GB && old(Content(blob)) == [] && prefix != "" ==> !ok
      ensures size > ONE_GB && old(Content(blob)) == [] && ok ==> !DistinctIds(blob.committed)
      ensures (ok || stored) && old(Editable(blob)) && !(size > ONE_GB && old(Content(blob)) == []) ==> Editable(blob)
      ensures stored && !(size > ONE_GB && old(Content(blob)) == []) ==> Editable(blob)
      ensures !ok && !stored ==> Clear(TruncateTo(size)) && CanChoose(TruncateTo(size))
      ensures !ok && !stored ==> blob.committed == old(blob.committed)
      ensures faults >= old(faults) && (!old(HasRoom(TruncateTo(size))) ==> !ok && !stored)
      ensures faults == old(faults) ==> ok == stored == old(HasRoom(TruncateTo(size)))
    {
      hide Accepted, Room;
      stored := false;
      var lookup: Lookup := *;
      if lookup != Present { faults := faults + 1; }
      if lookup == Missing { return false, false; }
      if lookup == Failed {
        // the size is not looked at when truncating to nothing, and the old error is what is returned
        if size == 0 { ok, stored := TruncateEmpty(0); }
        return false, stored;
      }
      var originalSize := |Content(blob)|;
      if size == 0 || originalSize == 0 {
        ok, stored := TruncateEmpty(size);
        return;
      }
      var list := new BlockOffsetList([]);
      if size >= limits.maxUpload {
        ok, list := GetFileBlockOffsets();
        if !ok { return; }
      }
      if size < limits.maxUpload || list.blocks == [] {
        var data;
        ok, data := HandleSmallFile(size, originalSize);
        if ok { ok := WriteFromBuffer(data); }
        stored := ok;
      } else {
        ok, stored := TruncateBlocks(list, size, originalSize);
      }
    }

    /** One edit; clean says that the blob is as the reported result makes a caller think. After a clean failure the
        same edit can be made again. */
    method ApplyEdit(e: Edit) returns (ok: bool, clean: bool)
      requires Valid() && Clear(e) && CanChoose(e) && Fits(Content(blob), e)
      modifies this
      ensures Valid() && (ok && clean ==> Editable(blob))
      ensures clean ==> Content(blob) == if ok then Applied(old(Content(blob)), e) else old(Content(blob))
      ensures !ok && clean ==> Clear(e) && CanChoose(e) && (HasRoom(e) <==> old(HasRoom(e)))
      ensures faults >= old(faults) && (!old(HasRoom(e)) ==> !ok)
      ensures faults == old(faults) ==> clean && (ok <==> old(HasRoom(e)))
    {
      hide Accepted, Room;
      match e {
        case WriteAt(offset, data) =>
          ghost var seen;
          WriteMeetsPwrite(blob.committed == [], Content(blob), offset, data);
          ok, clean, seen := Write(offset, data);
          clean := clean || !ok;
        case TruncateTo(size) =>
          ok, clean := TruncateFile(size);
          clean := clean == ok;
      }
    }

    /** The same edit made again until it succeeds, at most `tries` times: however often it failed before, a success
        is one pwrite() or ftruncate(). */
    method Persist(e: Edit, tries: nat) returns (ok: bool, clean: bool, failed: nat)
      requires Valid() && Clear(e) && CanChoose(e) && Fits(Content(blob), e)
      modifies this
      ensures Valid() && (ok && clean ==> Editable(blob))
      ensures clean ==> Content(blob) == if ok then Applied(old(Content(blob)), e) else old(Content(blob))
      ensures clean ==> failed <= tries && (ok <==> failed < tries)
      ensures !ok && clean ==> Clear(e) && CanChoose(e) && (HasRoom(e) <==> old(HasRoom(e)))
      ensures faults >= old(faults) && (!clean ==> faults > old(faults)) && (!old(HasRoom(e)) ==> !ok)
      ensures !ok && clean && old(HasRoom(e)) ==> faults >= old(faults) + tries
    {
      hide Accepted, Room;
      ok, clean, failed := false, true, 0;
      while !ok && clean && failed < tries
        invariant Valid() && (ok && clean ==> Editable(blob))
        invariant clean ==> Content(blob) == if ok then Applied(old(Content(blob)), e) else old(Content(blob))
        invariant !ok && clean ==> Clear(e) && CanChoose(e) && (HasRoom(e) <==> old(HasRoom(e)))
        invariant faults >= old(faults) && (!clean ==> faults > old(faults)) && (!old(HasRoom(e)) ==> !ok)
        invariant !ok && clean && old(HasRoom(e)) ==> faults >= old(faults) + failed
        invariant clean ==> failed <= tries && (ok ==> failed < tries)
        decreases !ok, tries - failed
      {
        ok, clean := ApplyEdit(e);
        if !ok { failed := failed + 1; }
      }
    }

    /** A whole run of edits, each made again up to `tries` times when it fails, up to the first one for which a storage
        call fails each time, that does other than it reports, or that finds no room. Unless one does other than it
        reports, the blob is the flat file after exactly the edits before it. The run may start on a blob left by
        failed calls of its first edit. */
    method RunEdits(edits: seq<Edit>, tries: nat) returns (done: nat, hidden: bool)
      requires Valid() && Supported(Content(blob), edits) && (edits != [] ==> Clear(edits[0]))
      modifies this
      ensures Valid() && done <= |edits| && (done == |edits| > 0 ==> !hidden && Editable(blob))
      ensures !hidden ==> Content(blob) == Replay(old(Content(blob)), edits[..done])
      ensures !hidden && done < |edits| ==> Clear(edits[done])
      ensures hidden ==> faults > old(faults)
      ensures !hidden && done < |edits| ==>
        !CanChoose(edits[done]) || !HasRoom(edits[done]) || faults >= old(faults) + tries
    {
      hide Accepted, Room;
      ghost var was := Content(blob);
      done, hidden := 0, false;
      while done < |edits|
        invariant done <= |edits| && Valid() && !hidden && (done > 0 ==> Editable(blob))
        invariant done < |edits| ==> Clear(edits[done])
        invariant faults >= old(faults)
        invariant Content(blob) == Replay(was, edits[..done]) && Supported(Content(blob), edits[done..])
      {
        assert edits[done..][1..] == edits[done + 1..];
        ReplayMore(was, edits[..done], edits[done]);
        assert edits[..done + 1] == edits[..done] + [edits[done]];
        if !CanChoose(edits[done]) { return; }
        var ok, clean, failed := Persist(edits[done], tries);
        if !ok || !clean { return done, !clean; }
        done := done + 1;
      }
    }
  }

  /** How the attribute lookup ends: the blob is there, it is not, or the call itself failed. */
  datatype Lookup = Present | Missing | Failed

  datatype Edit = WriteAt(offset: nat, data: Bytes) | TruncateTo(size: nat)

  function Applied(was: Bytes, e: Edit): Bytes
  {
    match e
    case WriteAt(offset, data) => PWrite(was, offset, data)
    case TruncateTo(size) => FTruncate(was, size)
  }

  /** The flat file after the edits. */
  function Replay(was: Bytes, edits: seq<Edit>): Bytes
    decreases |edits|
  {
    if edits == [] then was else Replay(Applied(was, edits[0]), edits[1..])
  }

  lemma {:induction false} ReplayMore(was: Bytes, edits: seq<Edit>, e: Edit)
    ensures Replay(was, edits + [e]) == Applied(Replay(was, edits), e)
    decreases |edits|
  {
    if edits == [] {
      assert (edits + [e])[1..] == [];
    } else {
      assert (edits + [e])[1..] == edits[1..] + [e];
      ReplayMore(Applied(was, edits[0]), edits[1..], e);
    }
  }

  /** No write is empty or misses the start of an empty file, and no empty file is blown up past 1 GB. */
  predicate Fits(was: Bytes, e: Edit)
  {
    match e
    case WriteAt(offset, data) => data != [] && (was == [] ==> offset == 0)
    case TruncateTo(size) => was == [] ==> size <= ONE_GB
  }

  predicate Supported(was: Bytes, edits: seq<Edit>)
    decreases |edits|
  {
    edits != [] ==> Fits(was, edits[0]) && Supported(Applied(was, edits[0]), edits[1..])
  }

  /** Exactly when a successful write is a pwrite(): the empty blob swallows the offset, and an
      empty write past the end still extends the file. */
  lemma WriteMeetsPwrite(single: bool, was: Bytes, offset: nat, data: Bytes)
    ensures Written(single, was, offset, data) == PWrite(was, offset, data) <==>
            if data == [] then offset <= |was| || (single && was == [])
            else !(single && was == [] && offset > 0)
  {
    var written, wanted := Written(single, was, offset, data), PWrite(was, offset, data);
    if single && was == [] && data != [] && offset > 0 {
      assert |written| != |wanted|;
    } else if data == [] && offset > |was| && !(single && was == []) {
      assert |written| != |wanted|;
    }
  }

  /** pwrite() byte by byte. */
  lemma PWriteBytes(was: Bytes, offset: nat, data: Bytes, i: nat)
    requires data != [] && i < Max(|was|, offset + |data|)
    ensures |PWrite(was, offset, data)| == Max(|was|, offset + |data|)
    ensures PWrite(was, offset, data)[i] ==
            if offset <= i < offset + |data| then data[i - offset] else if i < |was| then was[i] else 0
  {
  }

  /** ftruncate() byte by byte. */
  lemma FTruncateBytes(was: Bytes, size: nat)
    ensures |FTruncate(was, size)| == size
    ensures forall i :: 0 <= i < size ==> FTruncate(was, size)[i] == if i < |was| then was[i] else 0
  {
  }

  /** A download error that Write ignored is harmless exactly when the lost bytes are overwritten. */
  lemma LostDownload(single: bool, was: Bytes, seen: Bytes, offset: nat, data: Bytes)
    requires data != [] && Torn(was, seen) && (single || |seen| == |was|)
    ensures Written(single, seen, offset, data) == PWrite(was, offset, data) <==>
            if single && seen == [] then offset == 0 && |was| <= |data|
            else forall i :: 0 <= i < |was| && !(offset <= i < offset + |data|) ==> seen[i] == was[i]
  {
    var written, wanted := Written(single, seen, offset, data), PWrite(was, offset, data);
    if single && seen == [] {
      assert offset == 0 && |was| <= |data| ==> wanted == data;
    } else {
      assert written == PWrite(seen, offset, data) && |written| == |wanted|;
      forall i | 0 <= i < |written|
        ensures written[i] == wanted[i] <==> (i < |was| && !(offset <= i < offset + |data|) ==> seen[i] == was[i])
      {
        PWriteBytes(seen, offset, data, i);
        PWriteBytes(was, offset, data, i);
      }
    }
  }

  /** Why ids must be distinct: staging one block under an id that is committed twice changes both,
      so overwriting the first byte of such a blob also changes the third. */
  lemma RepeatedIdsBreakEdit()
    ensures var b := Blob([], [StoredBlock(1, [7, 7]), StoredBlock(1, [7, 7])], map[]);
      && Known(PutBlock(b, 1, [9, 7]), 1)
      && Content(PutBlockList(PutBlock(b, 1, [9, 7]), [1, 1])) != PWrite(Content(b), 0, [9])
  {
    var b := Blob([], [StoredBlock(1, [7, 7]), StoredBlock(1, [7, 7])], map[]);
    var out := PutBlockList(PutBlock(b, 1, [9, 7]), [1, 1]);
    var changed := StoredBlock(1, [9, 7]);
    assert out.committed == [changed, changed] && [changed, changed][1..] == [changed];
    assert Flatten([changed]) == [9, 7] && Content(out)[2] == 9;
    assert b.committed[1..] == [StoredBlock(1, [7, 7])] && Flatten(b.committed[1..]) == [7, 7];
    assert Content(b) == [7, 7] + [7, 7];
    PWriteBytes(Content(b), 0, [9], 2);
  }

  /** Why no other copy may wait: a write to the first block that failed after staging it is committed by the
      next write, though that one is for the second block. */
  lemma LeftoverCommitted()
    ensures var b := Blob([], [StoredBlock(1, [7]), StoredBlock(2, [8])], map[]);
      var failed := PutBlock(b, 1, [9]); var staged := PutBlock(failed, 2, [5]);
      && Content(failed) == Content(b) && Known(staged, 1) && Known(staged, 2)
      && Content(PutBlockList(staged, [1, 2])) == [9, 5] && PWrite(Content(failed), 1, [5]) == [7, 5]
  {
    var b := Blob([], [StoredBlock(1, [7]), StoredBlock(2, [8])], map[]);
    var staged := PutBlock(PutBlock(b, 1, [9]), 2, [5]);
    TwoBlocks(b.committed);
    TwoBlocks(PutBlockList(staged, [1, 2]).committed);
  }

  lemma TwoBlocks(bs: seq<StoredBlock>)
    requires |bs| == 2
    ensures Flatten(bs) == bs[0].data + bs[1].data
  {
    assert bs[1..] == [bs[1]] && Flatten([bs[1]]) == bs[1].data + Flatten([]);
  }

  // ---- truncation ----

  /** The staged blocks under `ids`, in order, are `total` zero bytes. */
  ghost predicate SpellsZeros(b: Blob, ids: seq<Id>, total: int)
  {
    && (forall i :: 0 <= i < |ids| ==>
          ids[i] in b.uncommitted && b.uncommitted[ids[i]] == Zeros(|b.uncommitted[ids[i]]|))
    && total == |Flatten(Uncommitted(b, ids))|
  }

  function Uncommitted(b: Blob, ids: seq<Id>): (bs: seq<StoredBlock>)
    ensures |bs| == |ids|
  {
    seq(|ids|, i requires 0 <= i < |ids| =>
      StoredBlock(ids[i], if ids[i] in b.uncommitted then b.uncommitted[ids[i]] else []))
  }

  /** Staging under an id that is not used yet leaves what the list spells alone. */
  lemma StageKeepsZeros(b: Blob, ids: seq<Id>, total: int, id: Id, data: Bytes)
    requires SpellsZeros(b, ids, total) && id !in ids
    ensures SpellsZeros(PutBlock(b, id, data), ids, total)
  {
    assert Uncommitted(PutBlock(b, id, data), ids) == Uncommitted(b, ids);
  }

  lemma SpellMore(b: Blob, ids: seq<Id>, total: int, id: Id, size: nat)
    requires SpellsZeros(b, ids, total) && id in b.uncommitted && b.uncommitted[id] == Zeros(size)
    ensures SpellsZeros(b, ids + [id], total + size)
  {
    var more := [StoredBlock(id, Zeros(size))];
    assert Uncommitted(b, ids + [id]) == Uncommitted(b, ids) + more;
    FlattenConcat(Uncommitted(b, ids), more);
    assert Flatten(more) == Zeros(size) + Flatten(more[1..]);
  }

  lemma CommitZeros(b: Blob, ids: seq<Id>, size: nat)
    requires SpellsZeros(b, ids, size) && |ids| > 1 && ids[0] == ids[1]
    ensures forall i :: 0 <= i < |ids| ==> Known(b, ids[i])
    ensures Content(PutBlockList(b, ids)) == Zeros(size) && !DistinctIds(PutBlockList(b, ids).committed)
  {
    var out := PutBlockList(b, ids).committed;
    assert out[0].id == out[1].id;
    assert out == Uncommitted(b, ids);
    FlattenZeros(out);
  }

  /** What StageAndCommit stages for a block. */
  function Payload(b: Block): Bytes { if b.truncated then Zeros(Max(0, Size(b))) else b.data }

  function Payloads(bs: seq<Block>): (pieces: seq<Bytes>)
    ensures |pieces| == |bs| && forall i :: 0 <= i < |bs| ==> pieces[i] == Payload(bs[i])
  {
    seq(|bs|, i requires 0 <= i < |bs| => Payload(bs[i]))
  }

  ghost predicate Pending(bs: seq<Block>) { exists i :: 0 <= i < |bs| && (bs[i].dirty || bs[i].removed) }

  /** What is known of the block cut at `size` when its remains had to be downloaded. */
  ghost predicate CutPiece(was: seq<Block>, now: seq<Block>, c: Bytes, index: nat, size: int, fetched: bool)
  {
    index < |was| && index < |now| && now[index].dirty ==>
      var start := was[index].start; var piece := now[index].data;
      && 0 <= start <= size <= |c| && |piece| == size - start
      && (fetched ==> piece == c[start..size])
      && forall i :: 0 <= i < |piece| ==> piece[i] == c[start + i] || piece[i] == 0
  }

  /** `now` is the list cut at `size` inside or at the end of block `index`. */
  ghost predicate CutAt(was: seq<Block>, now: seq<Block>, index: nat, size: int)
  {
    && index < |was| && |now| == index + 1 && now[..index] == was[..index]
    && was[index].start < size <= was[index].end
    && now[index].start == was[index].start && now[index].end == size && now[index].id == was[index].id
    && now[index].removed && !now[index].truncated && now[index].dirty == (size < was[index].end)
  }

  lemma CutList(was: seq<Block>, now: seq<Block>, b: Blob, index: nat, size: int)
    requires Cuttable(b, size) && ListOf(was, b.committed) && CutAt(was, now, index, size)
    ensures DistinctBlocks(now) && CleanBlocksCommitted(now, b) && Pending(now)
    ensures forall i :: 0 <= i < |now| ==> now[i].id == b.committed[i].id
    ensures forall i :: 0 <= i < index ==> !now[i].dirty
  {
    KeptWhole(was, now, b.committed, index, size);
    assert forall i :: 0 <= i < index ==> now[i] == now[..index][i] == was[i];
    assert now[index].removed;
  }

  /** The blocks a cut leaves clean are those that end at or before the new size. */
  lemma KeptWhole(was: seq<Block>, now: seq<Block>, cs: seq<StoredBlock>, index: nat, size: int)
    requires Tiled(was) && ListOf(was, cs) && CutAt(was, now, index, size)
    ensures forall i :: 0 <= i < |cs| ==> (Begin(cs, i + 1) <= size <==> i < |now| && !now[i].dirty)
  {
    TiledOrders(was);
    forall i | 0 <= i < |cs| ensures Begin(cs, i + 1) <= size <==> i < |now| && !now[i].dirty {
      CommittedPrefix(was, cs, i + 1);
      if i < index { assert now[i] == now[..index][i] == was[i]; }
    }
  }

  /** A truncation that takes nothing away asks for all blocks. */
  lemma WholeKept(b: Blob, size: int)
    requires Cuttable(b, size) && b.committed != [] && |Content(b)| <= size
    ensures Editable(b)
  {
    forall i | 0 <= i < |b.committed| ensures NoOther(b, i) {
      var front, rest := b.committed[..i + 1], b.committed[i + 1..];
      assert b.committed == front + rest;
      FlattenConcat(front, rest);
    }
  }

  lemma CleanList(bs: seq<Block>, b: Blob)
    requires Editable(b) && ListOf(bs, b.committed)
    ensures DistinctBlocks(bs) && CleanBlocksCommitted(bs, b) && !Pending(bs)
  {
  }

  lemma StillEditable(was: seq<Block>, now: seq<Block>, b: Blob, b': Blob)
    requires Editable(b) && ListOf(was, b.committed) && was <= now
    requires b'.committed == b.committed && CleanBlocksCommitted(now, b')
    ensures Editable(b')
  {
    forall i | 0 <= i < |was| ensures NoOther(b', i) { assert now[i] == was[i]; }
  }

  lemma CleanCommitted(bs: seq<Block>, b: Blob, b': Blob)
    requires Editable(b) && ListOf(bs, b.committed) && b'.committed == b.committed && CleanBlocksCommitted(bs, b')
    ensures Editable(b')
  {
  }

  /** A shrinking truncation that failed has left nothing under the blocks it keeps whole. */
  lemma StillCuttable(was: seq<Block>, cut: seq<Block>, b: Blob, b': Blob, index: nat, size: int)
    requires Cuttable(b, size) && Tiled(was) && ListOf(was, b.committed) && CutAt(was, cut, index, size)
    requires b'.committed == b.committed && CleanBlocksCommitted(cut, b')
    ensures Cuttable(b', size)
  {
    KeptWhole(was, cut, b.committed, index, size);
  }

  lemma EditableList(bs: seq<Block>, b: Blob)
    requires Editable(b) && ListOf(bs, b.committed) && b.committed != []
    ensures Tiled(bs) && |bs| == |b.committed| && DistinctIds(b.committed)
    ensures End(bs) == bs[|bs| - 1].end == |Content(b)|
  {
    CommittedPrefix(bs, b.committed, |bs|);
    assert b.committed[..|bs|] == b.committed;
  }

  lemma GrownList(was: seq<Block>, now: seq<Block>, b: Blob, upTo: int, chosen: int, firstId: Id)
    requires Editable(b) && ListOf(was, b.committed) && Below(b.committed, firstId)
    requires Grown(was, now, upTo, chosen, firstId)
    ensures DistinctBlocks(now) && CleanBlocksCommitted(now, b) && ListBelow(now, firstId + |now| - |was|) && was <= now
    ensures End(was) < upTo ==> Pending(now)
  {
    assert forall i :: 0 <= i < |was| ==> now[i] == was[i];
    if End(was) < upTo { assert now[|now| - 1].dirty; }
  }

  lemma CutContent(was: seq<Block>, now: seq<Block>, cs: seq<StoredBlock>, out: seq<StoredBlock>, index: nat, size: nat)
    requires Tiled(was) && ListOf(was, cs) && CutAt(was, now, index, size)
    requires Committed(now, Payloads(now), cs, out)
    ensures var start := was[index].start;
      && 0 <= start < size <= |Flatten(cs)|
      && Flatten(out) == Flatten(cs)[..start] + (if now[index].dirty then now[index].data else Flatten(cs)[start..size])
  {
    CommittedPrefix(was, cs, index);
    CommittedPrefix(was, cs, index + 1);
    FlattenSplit(cs, index);
    FlattenSplit(out, index);
    assert out[..index + 1] == out;
    assert Flatten(out[..index]) == Flatten(cs[..index]) by {
      forall i | 0 <= i < index ensures out[..index][i].data == cs[..index][i].data {
        assert now[i] == now[..index][i] == was[i];
      }
      FlattenSame(out[..index], cs[..index]);
    }
  }

  lemma CutBytes(c: Bytes, start: nat, size: nat, piece: Bytes, fetched: bool, r: Bytes)
    requires start <= size <= |c| && |piece| == size - start && r == c[..start] + piece
    requires fetched ==> piece == c[start..size]
    requires forall i :: 0 <= i < |piece| ==> piece[i] == c[start + i] || piece[i] == 0
    ensures |r| == size && Torn(c[..size], r) && (fetched ==> r == c[..size])
  {
  }

  /** After a shrinking truncation: the first `size` bytes, as far as the download delivered them. */
  lemma AfterCut(was: seq<Block>, cut: seq<Block>, b: Blob, b': Blob, index: nat, size: nat, fetched: bool)
    requires Cuttable(b, size) && b.committed != [] && Tiled(was)
    requires ListOf(was, b.committed) && CutAt(was, cut, index, size)
    requires CutPiece(was, cut, Content(b), index, size, fetched)
    requires Committed(cut, Payloads(cut), b.committed, b'.committed) && b'.uncommitted == map[]
    ensures size <= |Content(b)| && |Content(b')| == size && Torn(Content(b)[..size], Content(b'))
    ensures fetched ==> Content(b') == Content(b)[..size]
    ensures Editable(b')
  {
    hide Flatten, Tiled, DistinctIds, DistinctBlocks;
    assert Editable(b') by {
      CutList(was, cut, b, index, size);
      CommittedEditable(cut, Payloads(cut), b, b');
    }
    CutContent(was, cut, b.committed, b'.committed, index, size);
    var c, start := Content(b), was[index].start;
    CutBytes(c, start, size, if cut[index].dirty then cut[index].data else c[start..size], fetched, Content(b'));
  }

  lemma GrownPieces(was: seq<Block>, now: seq<Block>, cs: seq<StoredBlock>, out: seq<StoredBlock>, upTo: int,
                    chosen: int, firstId: Id)
    requires ListOf(was, cs) && Grown(was, now, upTo, chosen, firstId) && Committed(now, Payloads(now), cs, out)
    ensures forall i :: 0 <= i < |was| ==> out[i].data == cs[i].data
    ensures forall i :: |was| <= i < |now| ==> out[i].data == Zeros(Size(now[i]))
    ensures forall i :: 0 <= i < |now| ==> Size(now[i]) == |out[i].data|
  {
    assert forall i :: 0 <= i < |was| ==> now[i] == was[i];
  }

  lemma EmptyPrefix(bs: seq<Block>)
    ensures DirtySize(bs[..0]) == 0
  {
  }

  lemma FlattenZeroTail(cs: seq<StoredBlock>, out: seq<StoredBlock>)
    requires |cs| <= |out|
    requires forall i :: 0 <= i < |cs| ==> out[i].data == cs[i].data
    requires forall i :: |cs| <= i < |out| ==> out[i].data == Zeros(|out[i].data|)
    ensures |Flatten(cs)| <= |Flatten(out)| && Flatten(out) == Resized(Flatten(cs), |Flatten(out)|)
  {
    hide Flatten;
    var n := |cs|;
    assert out == out[..n] + out[n..];
    FlattenConcat(out[..n], out[n..]);
    FlattenZeros(out[n..]);
    FlattenSame(out[..n], cs);
  }

  /** Old blocks followed by zero blocks up to `size`. */
  lemma GrownContent(now: seq<Block>, cs: seq<StoredBlock>, out: seq<StoredBlock>, size: nat)
    requires Tiled(now) && End(now) == size && |cs| <= |now| == |out|
    requires forall i :: 0 <= i < |cs| ==> out[i].data == cs[i].data
    requires forall i :: |cs| <= i < |now| ==> out[i].data == Zeros(Size(now[i]))
    requires forall i :: 0 <= i < |now| ==> Size(now[i]) == |out[i].data|
    ensures |Flatten(cs)| <= size && Flatten(out) == FTruncate(Flatten(cs), size)
  {
    CommittedPrefix(now, out, |now|);
    assert out[..|now|] == out;
    FlattenZeroTail(cs, out);
  }

  lemma AfterGrow(was: seq<Block>, now: seq<Block>, b: Blob, b': Blob, size: nat, chosen: int, firstId: Id)
    requires Editable(b) && b.committed != [] && ListOf(was, b.committed) && Below(b.committed, firstId)
    requires Grown(was, now, size, chosen, firstId) && End(was) <= size
    requires Committed(now, Payloads(now), b.committed, b'.committed) && b'.uncommitted == map[]
    ensures Editable(b') && Content(b') == FTruncate(Content(b), size)
  {
    GrownPieces(was, now, b.committed, b'.committed, size, chosen, firstId);
    GrownContent(now, b.committed, b'.committed, size);
    GrownList(was, now, b, size, chosen, firstId);
    CommittedEditable(now, Payloads(now), b, b');
  }

  /** A committed list is editable again when nothing staged for it was empty. */
  lemma CommittedEditable(bs: seq<Block>, pieces: seq<Bytes>, was: Blob, now: Blob)
    requires Sturdy(was) && DistinctBlocks(bs)
    requires Committed(bs, pieces, was.committed, now.committed) && now.uncommitted == map[]
    requires forall i :: 0 <= i < |bs| && bs[i].dirty ==> pieces[i] != []
    ensures Editable(now)
  {
  }

  lemma {:induction false} FlattenZeros(bs: seq<StoredBlock>)
    requires forall i :: 0 <= i < |bs| ==> bs[i].data == Zeros(|bs[i].data|)
    ensures Flatten(bs) == Zeros(|Flatten(bs)|)
  {
    if bs != [] { FlattenZeros(bs[1..]); }
  }

  // ---- write ----

  /** The committed bytes of the run replaced by the buffer. */
  ghost predicate Spliced(bs: seq<Block>, was: Blob, now: Blob, buffer: Bytes, lo: nat, hi: nat)
  {
    && lo <= hi <= |bs| && |was.committed| <= |bs|
    && var c := Content(was); var tail := Min(hi, |was.committed|);
       && 0 <= StartOf(bs, lo) <= StartOf(bs, tail) <= |c|
       && Content(now) == c[..StartOf(bs, lo)] + buffer + c[StartOf(bs, tail)..]
  }

  /** A list ready to be staged and committed. */
  ghost predicate Planned(bs: seq<Block>, b: Blob, lo: nat, hi: nat)
  {
    DirtyRun(bs, b.committed, lo, hi) && DistinctBlocks(bs) && CleanBlocksCommitted(bs, b)
  }

  /** The run [lo, hi) covers the write; its first oldSize bytes are committed, newSize are new. */
  ghost predicate Covers(bs: seq<Block>, cs: seq<StoredBlock>, lo: nat, hi: nat, offset: int, length: int,
                         oldSize: int, newSize: int)
  {
    && lo <= hi <= |bs| && |cs| <= |bs|
    && oldSize == StartOf(bs, Min(hi, |cs|)) - StartOf(bs, Min(lo, |cs|))
    && newSize == Max(0, offset + length - |Flatten(cs)|)
    && oldSize + newSize == StartOf(bs, hi) - StartOf(bs, lo)
    && StartOf(bs, lo) <= offset && offset + length <= StartOf(bs, hi)
  }

  /** The run [lo, hi) has exactly the committed blocks that the write touches. */
  ghost predicate RunTouched(cs: seq<StoredBlock>, lo: nat, hi: nat, offset: int, length: int)
  {
    forall i :: 0 <= i < |cs| ==> (lo <= i < hi <==> Touches(cs, i, offset, length))
  }

  lemma FoundTouched(was: seq<Block>, cs: seq<StoredBlock>, lo: nat, hi: nat, offset: nat, length: nat)
    requires Tiled(was) && ListOf(was, cs) && lo <= hi <= |was|
    requires lo < hi ==> Holds(was[lo], offset) && was[hi - 1].start <= offset + length
    requires lo == hi ==> offset >= End(was)
    requires hi < |was| ==> offset + length < was[hi].start
    ensures RunTouched(cs, lo, hi, offset, length)
  {
    TiledOrders(was);
    forall i | 0 <= i < |cs| ensures lo <= i < hi <==> Touches(cs, i, offset, length) {
      CommittedPrefix(was, cs, i);
      CommittedPrefix(was, cs, i + 1);
    }
  }

  /** A write that failed has left nothing under the blocks it does not touch. */
  lemma StillWritable(bs: seq<Block>, was: Blob, now: Blob, lo: nat, hi: nat, offset: int, length: int)
    requires Writable(was, offset, length) && RunTouched(was.committed, lo, hi, offset, length)
    requires now.committed == was.committed && Planned(bs, now, lo, hi)
    ensures Writable(now, offset, length)
  {
  }

  lemma MarkedRun(was: seq<Block>, marked: seq<Block>, b: Blob, lo: nat, hi: nat, offset: int, length: int)
    requires Writable(b, offset, length) && RunTouched(b.committed, lo, hi, offset, length)
    requires ListOf(was, b.committed) && MarkedDirty(was, marked, lo, hi)
    ensures Planned(marked, b, lo, hi)
    ensures forall i :: 0 <= i <= |was| ==> StartOf(marked, i) == StartOf(was, i)
  {
    assert Tiled(marked) by {
      assert forall i, j :: 0 <= i && j == i + 1 < |was| ==> was[i].end == was[j].start;
    }
  }

  lemma GrownRun(marked: seq<Block>, now: seq<Block>, b: Blob, lo: nat, upTo: int, chosen: int, firstId: Id)
    requires Planned(marked, b, lo, |marked|) && |marked| == |b.committed| && Below(b.committed, firstId)
    requires forall i :: 0 <= i < |marked| ==> marked[i].id == b.committed[i].id
    requires Grown(marked, now, upTo, chosen, firstId)
    ensures Planned(now, b, lo, |now|)
  {
    assert forall i :: 0 <= i < |marked| ==> now[i] == marked[i];
  }

  lemma GrownPlan(marked: seq<Block>, now: seq<Block>, b: Blob, lo: nat, offset: nat, length: nat, chosen: int,
                  firstId: Id)
    requires Planned(marked, b, lo, |marked|) && |marked| == |b.committed| > 0 && Below(b.committed, firstId)
    requires forall i :: 0 <= i < |marked| ==> marked[i].id == b.committed[i].id
    requires End(marked) == |Flatten(b.committed)| <= offset + length && lo <= |marked| && StartOf(marked, lo) <= offset
    requires Grown(marked, now, offset + length, chosen, firstId)
    ensures Planned(now, b, lo, |now|) && ListBelow(now, firstId + |now| - |marked|)
    ensures Covers(now, b.committed, lo, |now|, offset, length,
                   End(marked) - StartOf(marked, lo), End(now) - End(marked))
  {
    GrownRun(marked, now, b, lo, offset + length, chosen, firstId);
    GrownCovers(marked, now, b.committed, lo, offset, length);
    assert forall i :: 0 <= i < |marked| ==> now[i] == marked[i];
  }

  lemma MarkedCovers(bs: seq<Block>, cs: seq<StoredBlock>, lo: nat, hi: nat, offset: nat, length: nat)
    requires Tiled(bs) && |bs| == |cs| && lo < hi <= |bs| && Holds(bs[lo], offset)
    requires offset + length < End(bs) == |Flatten(cs)|
    requires hi < |bs| ==> offset + length < bs[hi].start
    ensures Covers(bs, cs, lo, hi, offset, length, StartOf(bs, hi) - StartOf(bs, lo), 0)
  {
  }

  lemma GrownCovers(marked: seq<Block>, now: seq<Block>, cs: seq<StoredBlock>, lo: nat, offset: nat, length: nat)
    requires marked <= now && Tiled(now) && marked != [] && |marked| == |cs| && lo <= |marked|
    requires End(marked) == |Flatten(cs)| <= offset + length == End(now)
    requires StartOf(marked, lo) <= offset
    ensures Covers(now, cs, lo, |now|, offset, length, End(marked) - StartOf(marked, lo), End(now) - End(marked))
    ensures StartOf(now, lo) == StartOf(marked, lo)
  {
    assert now[|marked| - 1] == marked[|marked| - 1];
    if lo < |marked| { assert now[lo] == marked[lo]; }
  }

  /** The committed part of the run lies inside the blob and its new part starts at the end. */
  lemma RunInside(bs: seq<Block>, b: Blob, lo: nat, hi: nat, offset: nat, length: nat, oldSize: nat, newSize: nat)
    requires Planned(bs, b, lo, hi) && Covers(bs, b.committed, lo, hi, offset, length, oldSize, newSize)
    requires b.committed != []
    ensures DirtySize(bs) == oldSize + newSize
    ensures 0 <= StartOf(bs, lo) && StartOf(bs, lo) + oldSize <= |Content(b)|
    ensures newSize > 0 ==> StartOf(bs, lo) + oldSize == |Content(b)|
    ensures StartOf(bs, lo) <= offset && offset + length <= StartOf(bs, lo) + oldSize + newSize
    ensures StartOf(bs, lo) + oldSize == StartOf(bs, Min(hi, |b.committed|))
  {
    var cs := b.committed;
    StartsGrow(bs, 0, lo);
    RunPosition(bs, cs, lo, hi, |bs|);
    assert bs[..|bs|] == bs;
    CommittedPrefix(bs, cs, Min(hi, |cs|));
    CommittedPrefix(bs, cs, |cs|);
    assert cs[..|cs|] == cs;
  }

  /** Putting the overlaid run back in place of the committed part is a write to the whole file as
      the download delivered it. */
  lemma SpliceIsWrite(c: Bytes, start: nat, oldSize: nat, newSize: nat, buffer: Bytes, fetched: bool, offset: nat,
                      data: Bytes)
    returns (seen: Bytes)
    requires start + oldSize <= |c| && (newSize > 0 ==> start + oldSize == |c|)
    requires |buffer| == oldSize + newSize && buffer == buffer[..oldSize] + Zeros(newSize)
    requires fetched ==> buffer[..oldSize] == c[start..start + oldSize]
    requires forall i :: 0 <= i < oldSize ==> buffer[i] == c[start + i] || buffer[i] == 0
    requires start <= offset && offset + |data| <= start + oldSize + newSize
    requires newSize == Max(0, offset + |data| - |c|)
    ensures Torn(c, seen) && (fetched ==> seen == c)
    ensures c[..start] + Overlay(buffer, offset - start, data) + c[start + oldSize..] ==
            Written(false, seen, offset, data)
  {
    seen := c[..start] + buffer[..oldSize] + c[start + oldSize..];
    SeenTorn(c, start, oldSize, buffer[..oldSize], seen);
    var whole, rest := c[..start] + buffer + c[start + oldSize..], c[start + oldSize..];
    assert whole == Resized(seen, Max(|seen|, offset + |data|)) by {
      if newSize > 0 { assert rest == []; } else { assert buffer[..oldSize] == buffer; }
    }
    OverlayInside(c[..start], buffer, rest, offset, data);
  }

  lemma SeenTorn(c: Bytes, start: nat, size: nat, part: Bytes, seen: Bytes)
    requires start + size <= |c| && |part| == size && seen == c[..start] + part + c[start + size..]
    requires forall i :: 0 <= i < size ==> part[i] == c[start + i] || part[i] == 0
    ensures Torn(c, seen) && (part == c[start..start + size] ==> seen == c)
  {
    forall i | 0 <= i < |c| ensures seen[i] == c[i] || seen[i] == 0 {
      if start <= i < start + size { assert seen[i] == part[i - start]; }
    }
  }

  /** Overlaying the middle part is overlaying the whole. */
  lemma OverlayInside(left: Bytes, buffer: Bytes, right: Bytes, offset: nat, data: Bytes)
    requires |left| <= offset && offset + |data| <= |left| + |buffer|
    ensures left + Overlay(buffer, offset - |left|, data) + right == Overlay(left + buffer + right, offset, data)
  {
    var whole, at := left + buffer + right, offset - |left|;
    assert whole[..offset] == left + buffer[..at];
    assert whole[offset + |data|..] == buffer[at + |data|..] + right;
  }

  /** After a successful commit the blob holds the edited bytes and can be edited again. */
  lemma CommitKeepsEditable(bs: seq<Block>, buffer: Bytes, pieces: seq<Bytes>, was: Blob, now: Blob, lo: nat, hi: nat)
    requires Planned(bs, was, lo, hi) && SlicesOf(pieces, bs, buffer) && was.committed != []
    requires |buffer| == DirtySize(bs) == StartOf(bs, hi) - StartOf(bs, lo)
    requires forall i :: 0 <= i < |was.committed| ==> was.committed[i].data != []
    requires Committed(bs, pieces, was.committed, now.committed) && now.uncommitted == map[]
    ensures Editable(now) && Spliced(bs, was, now, buffer, lo, hi)
  {
    hide Flatten, DirtySize;
    EditedContent(bs, buffer, pieces, was.committed, now.committed, lo, hi);
    forall i | 0 <= i < |bs| ensures now.committed[i].data != [] {
      if bs[i].dirty { NextSlice(bs, buffer, pieces, i); }
    }
  }

  // ---- sizes ----

  lemma TimesGrows(a: nat, b: nat, c: nat)
    requires a <= b
    ensures a * c <= b * c
  {
  }

  lemma CeilDivBounds(a: nat, b: nat)
    requires b > 0
    ensures a <= CeilDiv(a, b) * b < a + b
  {
    var n := a + b - 1;
    assert n == n / b * b + n % b;
  }

  /** The least number of blocks of this size that hold `length` bytes. */
  lemma LeastCount(count: nat, size: nat, length: int, slots: int)
    requires count > 0 ==> (count - 1) * size < length
    requires count * size >= length
    ensures Room(slots, size, length) <==> count <= slots
  {
    if count <= slots { assert Enough(count, size, length); }
    if Room(slots, size, length) {
      var k: nat :| k <= slots && Enough(k, size, length);
      if k < count { TimesGrows(k, count - 1, size); }
    }
  }

  lemma RoomByCount(length: nat, size: nat, slots: int)
    requires size > 0
    ensures Room(slots, size, length) <==> CeilDiv(length, size) <= slots
  {
    CeilDivBounds(length, size);
    var n := CeilDiv(length, size);
    assert n > 0 ==> (n - 1) * size == n * size - size;
    LeastCount(n, size, length, slots);
  }

  lemma TooSmall(k: nat, s: nat, q: nat, length: nat, slots: nat)
    requires k <= slots && s < q && q * slots < length + slots
    ensures k * s < length
  {
    TimesGrows(k, slots, s);
    TimesGrows(s + 1, q, slots);
    assert (s + 1) * slots == slots * s + slots;
  }

  /** Shared out evenly: the smallest size that will do. */
  lemma SmallestRoom(length: nat, slots: nat, maxStage: nat)
    requires slots > 0
    ensures var q := CeilDiv(length, slots);
      && (length > 0 ==> q > 0) && Room(slots, q, length)
      && (forall s: nat :: s < q ==> !Room(slots, s, length))
      && ((exists s: nat :: s <= maxStage && Room(slots, s, length)) <==> q <= maxStage)
  {
    var q := CeilDiv(length, slots);
    CeilDivBounds(length, slots);
    assert Enough(slots, q, length) by { assert slots * q == q * slots; }
    assert Room(slots, q, length);
    forall s: nat | s < q ensures !Room(slots, s, length) {
      forall k: nat | k <= slots ensures !Enough(k, s, length) { TooSmall(k, s, q, length, slots); }
    }
    hide Room;
    if s: nat :| s <= maxStage && Room(slots, s, length) { assert q <= s; }
  }

  lemma Chosen(limits: Limits, blockSize: nat, slots: int, length: nat, size: nat, ok: bool)
    requires if blockSize > 0 then size == blockSize && (ok <==> Room(slots, blockSize, length))
             else if Room(slots, DEFAULT_BLOCK, length) then size == DEFAULT_BLOCK && ok
             else && Room(slots, size, length) && (forall s: nat :: s < size ==> !Room(slots, s, length))
                  && (ok <==> size <= limits.maxStage)
    ensures ok ==> Chooses(limits, blockSize, slots, length, size)
    ensures !ok ==> forall s: nat :: !Chooses(limits, blockSize, slots, length, s)
  {
  }

  /** At most one size is chosen, so what is accepted can be read off the choice. */
  lemma AcceptedWhen(limits: Limits, blockSize: nat, slots: int, length: int, span: int, chosen: nat, ok: bool)
    requires ok ==> Chooses(limits, blockSize, slots, length, chosen)
    requires blockSize > 0 ==> (ok <==> Room(slots, blockSize, length))
    requires blockSize == 0 ==> (ok <==>
      Room(slots, DEFAULT_BLOCK, length) || exists s: nat :: s <= limits.maxStage && Room(slots, s, length))
    ensures Accepted(limits, blockSize, slots, length, span) <==> ok && Room(slots, chosen, span)
  {
    forall size: nat | Chooses(limits, blockSize, slots, length, size) ensures ok && size == chosen {
    }
  }

  function Chunks(data: Bytes, size: nat, id: Id): seq<StoredBlock>
    requires size > 0
  {
    if data == [] then []
    else if |data| <= size then [StoredBlock(id, data)]
    else [StoredBlock(id, data[..size])] + Chunks(data[size..], size, id + 1)
  }

  lemma {:induction false} ChunksRejoin(data: Bytes, size: nat, id: Id)
    requires size > 0
    ensures var bs := Chunks(data, size, id);
      && Flatten(bs) == data && (data != [] ==> bs != [])
      && forall i :: 0 <= i < |bs| ==> bs[i].data != [] && bs[i].id == id + i
    decreases |data|
  {
    if |data| > size {
      ChunksRejoin(data[size..], size, id + 1);
    }
  }
}
