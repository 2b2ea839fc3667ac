/** Appending to a new file through the block cache: blocks are filled, uploaded by workers in any
    order with retries, and committed as one block list. */
module Writer {
  import opened FlatFile
  import opened BlobStore
  import opened BlockPool
  import opened Sequences

  const MIN_WRITE_BLOCK := 3
  const MAX_FAIL_CNT := 3
  const MAX_BLOCKS := 50000

  datatype WorkItem = WorkItem(block: Ref, blockId: Id, failCnt: nat)

  /** The handle's map and lists, the memory its blocks are in, the ids it has drawn, the blob, and
      the upload items the workers have yet to finish. `chunks` is the file, block by block. */
  datatype State = State(blocks: map<Ref, Block>, nodes: map<nat, Ref>, cooked: seq<Ref>, cooking: seq<Ref>,
                         listMap: map<nat, Id>, blob: Blob, queue: set<WorkItem>, chunks: seq<Bytes>)

  function Join(chunks: seq<Bytes>): Bytes
  {
    if chunks == [] then [] else Join(chunks[..|chunks| - 1]) + chunks[|chunks| - 1]
  }

  /** The file cut into blocks: all of them full but the last, which is not empty. */
  ghost predicate Chunked(chunks: seq<Bytes>, blockSize: nat, size: nat)
  {
    && (forall k :: 0 <= k < |chunks| ==> 1 <= |chunks[k]| <= blockSize)
    && (forall k :: 0 <= k < |chunks| - 1 ==> |chunks[k]| == blockSize)
    && size == if chunks == [] then 0 else (|chunks| - 1) * blockSize + |chunks[|chunks| - 1]|
  }

  /** The block holds its chunk of the file. */
  ghost predicate Carries(b: Block, chunks: seq<Bytes>, blockSize: nat)
  {
    && 0 <= b.id < |chunks| && b.offset == b.id * blockSize && b.endIndex == b.offset + |chunks[b.id]|
    && |chunks[b.id]| <= |b.data| && b.data[..|chunks[b.id]|] == chunks[b.id]
  }

  /** Chunk k is staged or committed under the id the handle has for it. */
  ghost predicate StagedAs(w: State, k: nat)
    requires k < |w.chunks|
  {
    k in w.listMap && Known(w.blob, w.listMap[k]) && Latest(w.blob, w.listMap[k]) == w.chunks[k]
  }

  function QueueBlocks(queue: set<WorkItem>): set<Ref> { set x | x in queue :: x.block }

  /** Each item is for another block, under that block's id, and not past its last attempt. */
  ghost predicate QueueOk(w: State)
  {
    && (forall x, y :: x in w.queue && y in w.queue && x.block == y.block ==> x == y)
    && (forall x :: x in w.queue ==>
          && x.failCnt <= MAX_FAIL_CNT && x.block in w.blocks && 0 <= w.blocks[x.block].id
          && w.blocks[x.block].id in w.listMap && w.listMap[w.blocks[x.block].id] == x.blockId)
  }

  /** Ids name one block each, and the next one is new. */
  ghost predicate IdsOk(w: State, nextId: Id)
  {
    && DistinctIds(w.blob.committed)
    && (forall i :: 0 <= i < |w.blob.committed| ==> w.blob.committed[i].id < nextId)
    && (forall id :: id in w.blob.uncommitted ==> id < nextId)
    && (forall k :: k in w.listMap ==> k < |w.chunks| && w.listMap[k] < nextId)
    && (forall k, j :: k in w.listMap && j in w.listMap && k != j ==> w.listMap[k] != w.listMap[j])
  }

  /** Blocks being filled: dirty and with nothing outstanding, except the one just opened. */
  ghost predicate Filling(w: State, open: set<Ref>, blockSize: nat)
  {
    forall r :: r in w.cooking ==>
      && r in w.blocks && !w.blocks[r].synced
      && (r !in open ==> w.blocks[r].state == Closed && w.blocks[r].dirty && Carries(w.blocks[r], w.chunks, blockSize))
  }

  /** A block handed to the workers: in the queue, or uploaded, or given up and still dirty. */
  ghost predicate InHand(w: State, r: Ref, blockSize: nat)
  {
    && r in w.blocks && Carries(w.blocks[r], w.chunks, blockSize) && w.blocks[r].state != Closed
    && w.blocks[r].id in w.listMap
    && (w.blocks[r].state == Pending <==> r in QueueBlocks(w.queue))
    && (w.blocks[r].state == Pending ==> w.blocks[r].dirty && !w.blocks[r].failed && !w.blocks[r].synced)
    && (w.blocks[r].state == Ready ==> if w.blocks[r].failed then w.blocks[r].dirty && !w.blocks[r].synced
        else !w.blocks[r].dirty && StagedAs(w, w.blocks[r].id))
  }

  ghost predicate Uploading(w: State, blockSize: nat)
  {
    && (forall r :: r in QueueBlocks(w.queue) ==> r in w.cooked)
    && (forall r :: r in w.cooked ==> InHand(w, r, blockSize))
  }

  /** The handle's map is the index of its two lists. */
  ghost predicate Mapped(w: State)
  {
    && Unrepeated(w.cooked) && Unrepeated(w.cooking)
    && (forall r :: r in w.cooked ==> r !in w.cooking)
    && (forall r :: r in w.cooked || r in w.cooking ==>
          r in w.blocks && 0 <= w.blocks[r].id && w.blocks[r].id in w.nodes && w.nodes[w.blocks[r].id] == r)
    && (forall k :: k in w.nodes ==> w.nodes[k] in w.cooked || w.nodes[k] in w.cooking)
    && (forall k :: k in w.nodes ==> w.nodes[k] in w.blocks && w.blocks[w.nodes[k]].id == k)
  }

  /** The chunks of blocks no longer held are staged. */
  ghost predicate Stored(w: State)
  {
    forall k: nat :: k < |w.chunks| && k !in w.nodes ==> StagedAs(w, k)
  }

  ghost predicate Inv(w: State, open: set<Ref>, blockSize: nat, nextId: Id)
  {
    Mapped(w) && Filling(w, open, blockSize) && Uploading(w, blockSize) && QueueOk(w) && IdsOk(w, nextId) && Stored(w)
  }

  /** What one attempt at item x comes to: the block staged and clean, or given up and still dirty,
      or the item back in the queue. A failed Put Block may still have staged the data. */
  ghost predicate Attempted(w: State, w': State, x: WorkItem, ok: bool)
  {
    && x in w.queue && x.block in w.blocks && var b := w.blocks[x.block];
    && b.offset <= b.endIndex <= b.offset + |b.data|
    && var staged := PutBlock(w.blob, x.blockId, b.data[..b.endIndex - b.offset]);
    && w' == w.(blob := w'.blob, queue := w'.queue, blocks := w'.blocks)
    && (w'.blob == staged || (!ok && w'.blob == w.blob))
    && (if ok
        then && w'.queue == w.queue - {x}
             && w'.blocks == w.blocks[x.block := b.(synced := true, dirty := false, state := Ready)]
        else if x.failCnt + 1 > MAX_FAIL_CNT
        then w'.queue == w.queue - {x} && w'.blocks == w.blocks[x.block := b.(failed := true, state := Ready)]
        else w'.queue == w.queue - {x} + {Again(x)} && w'.blocks == w.blocks)
  }

  function Again(x: WorkItem): WorkItem { x.(failCnt := x.failCnt + 1) }

  lemma ItemTaken(queue: set<WorkItem>, x: WorkItem)
    requires x in queue && forall x, y :: x in queue && y in queue && x.block == y.block ==> x == y
    ensures QueueBlocks(queue - {x}) == QueueBlocks(queue) - {x.block}
    ensures QueueBlocks(queue - {x} + {Again(x)}) == QueueBlocks(queue)
  {
  }

  /** Staging one chunk under its own id leaves every other chunk staged. */
  lemma StagingKeeps(w: State, w': State, k: nat)
    requires k < |w.chunks| && k in w.listMap && w'.listMap == w.listMap && w'.chunks == w.chunks
    requires w'.blob == w.blob || w'.blob == PutBlock(w.blob, w.listMap[k], w.chunks[k])
    requires forall i, j :: i in w.listMap && j in w.listMap && i != j ==> w.listMap[i] != w.listMap[j]
    ensures forall j: nat :: j < |w.chunks| && StagedAs(w, j) ==> StagedAs(w', j)
    ensures w'.blob == PutBlock(w.blob, w.listMap[k], w.chunks[k]) ==> StagedAs(w', k)
  {
  }

  /** Workers may take the queued items in any order and at any time. */
  lemma AttemptKeeps(w: State, w': State, x: WorkItem, ok: bool, open: set<Ref>, blockSize: nat, nextId: Id)
    requires Inv(w, open, blockSize, nextId) && Attempted(w, w', x, ok)
    ensures Inv(w', open, blockSize, nextId)
  {
    AttemptOne(w, w', x, ok, blockSize, nextId);
    AttemptRest(w, w', x, ok, open, blockSize, nextId);
    forall r | r in w'.cooked && r != x.block ensures InHand(w', r, blockSize) { assert InHand(w, r, blockSize); }
  }

  lemma AttemptOne(w: State, w': State, x: WorkItem, ok: bool, blockSize: nat, nextId: Id)
    requires Uploading(w, blockSize) && QueueOk(w) && IdsOk(w, nextId) && Attempted(w, w', x, ok)
    ensures x.block in w.cooked && InHand(w, x.block, blockSize) && InHand(w', x.block, blockSize)
    ensures forall j: nat :: j < |w.chunks| && StagedAs(w, j) ==> StagedAs(w', j)
    ensures forall r :: r in QueueBlocks(w'.queue) ==> r in QueueBlocks(w.queue)
    ensures forall r :: r in QueueBlocks(w.queue) && r != x.block ==> r in QueueBlocks(w'.queue)
  {
    assert x.block in QueueBlocks(w.queue);
    assert InHand(w, x.block, blockSize);
    ItemTaken(w.queue, x);
    StagingKeeps(w, w', w.blocks[x.block].id);
  }

  lemma AttemptRest(w: State, w': State, x: WorkItem, ok: bool, open: set<Ref>, blockSize: nat, nextId: Id)
    requires Inv(w, open, blockSize, nextId) && Attempted(w, w', x, ok) && x.block in w.cooked
    ensures Mapped(w') && Filling(w', open, blockSize) && QueueOk(w') && IdsOk(w', nextId)
  {
    hide Uploading, Stored;
  }

  /** lineupUpload: a dirty block gets a new id and goes to the workers. */
  function LinedUp(w: State, i: nat, id: Id): State
    requires i < |w.cooking| && w.cooking[i] in w.blocks && 0 <= w.blocks[w.cooking[i]].id
  {
    var r := w.cooking[i];
    var b := w.blocks[r];
    w.(listMap := w.listMap[b.id := id], queue := w.queue + {WorkItem(r, id, 0)}, cooking := Without(w.cooking, i),
       cooked := w.cooked + [r], blocks := w.blocks[r := b.(state := Pending, failed := false)])
  }

  ghost predicate WentUp(w: State, w': State, i: nat, id: Id)
  {
    i < |w.cooking| && w.cooking[i] in w.blocks && 0 <= w.blocks[w.cooking[i]].id && w' == LinedUp(w, i, id)
  }

  lemma LineupKeeps(w: State, i: nat, open: set<Ref>, blockSize: nat, nextId: Id)
    requires Inv(w, open, blockSize, nextId) && i < |w.cooking| && w.cooking[i] !in open
    ensures w.cooking[i] in w.blocks && 0 <= w.blocks[w.cooking[i]].id && Unrepeated(w.cooking)
    ensures Inv(LinedUp(w, i, nextId), open, blockSize, nextId + 1)
  {
    LineupLists(w, i, open, blockSize, nextId);
    assert Carries(w.blocks[w.cooking[i]], w.chunks, blockSize);
    LineupQueue(w, i, blockSize, nextId);
    hide Mapped, Filling, Uploading, QueueOk;
  }

  lemma LineupQueue(w: State, i: nat, blockSize: nat, nextId: Id)
    requires Mapped(w) && Uploading(w, blockSize) && QueueOk(w) && IdsOk(w, nextId) && Stored(w) && i < |w.cooking|
    requires w.cooking[i] in w.blocks && w.blocks[w.cooking[i]].dirty && !w.blocks[w.cooking[i]].synced
    requires Carries(w.blocks[w.cooking[i]], w.chunks, blockSize)
    ensures var w' := LinedUp(w, i, nextId);
      Uploading(w', blockSize) && QueueOk(w') && IdsOk(w', nextId + 1) && Stored(w')
  {
    var w', r := LinedUp(w, i, nextId), w.cooking[i];
    assert QueueBlocks(w'.queue) == QueueBlocks(w.queue) + {r};
    LineupIds(w, i, nextId);
    hide IdsOk, Stored;
    assert InHand(w', r, blockSize);
    forall q | q in w.cooked ensures InHand(w', q, blockSize) { StaysInHand(w, w', q, blockSize); }
  }

  lemma StaysInHand(w: State, w': State, r: Ref, blockSize: nat)
    requires InHand(w, r, blockSize) && r in w'.blocks && w'.blocks[r] == w.blocks[r] && w'.chunks == w.chunks
    requires w.blocks[r].id in w'.listMap && (StagedAs(w, w.blocks[r].id) ==> StagedAs(w', w.blocks[r].id))
    requires r in QueueBlocks(w'.queue) <==> r in QueueBlocks(w.queue)
    ensures InHand(w', r, blockSize)
  {
  }

  lemma LineupIds(w: State, i: nat, nextId: Id)
    requires Mapped(w) && IdsOk(w, nextId) && Stored(w) && i < |w.cooking| && w.blocks[w.cooking[i]].id < |w.chunks|
    ensures var w' := LinedUp(w, i, nextId); IdsOk(w', nextId + 1) && Stored(w')
    ensures forall j: nat :: j < |w.chunks| && j != w.blocks[w.cooking[i]].id && StagedAs(w, j) ==>
      StagedAs(LinedUp(w, i, nextId), j)
  {
  }

  lemma LineupLists(w: State, i: nat, open: set<Ref>, blockSize: nat, nextId: Id)
    requires Mapped(w) && Filling(w, open, blockSize) && i < |w.cooking|
    ensures w.cooking[i] in w.blocks && 0 <= w.blocks[w.cooking[i]].id
    ensures Mapped(LinedUp(w, i, nextId)) && Filling(LinedUp(w, i, nextId), open, blockSize)
  {
    WithoutMember(w.cooking, i);
  }

  /** waitAndFreeUploadedBlocks on a block whose upload was given up: back to the blocks being filled. */
  function Returned(w: State): State
    requires w.cooked != [] && w.cooked[0] in w.blocks
  {
    var r := w.cooked[0];
    w.(cooked := w.cooked[1..], cooking := [r] + w.cooking, blocks := w.blocks[r := w.blocks[r].(state := Closed)])
  }

  /** The front block of the upload list, once its result is there. */
  ghost predicate Finished(w: State)
  {
    w.cooked != [] && w.cooked[0] in w.blocks && w.blocks[w.cooked[0]].state == Ready
  }

  lemma ReturnKeeps(w: State, open: set<Ref>, blockSize: nat, nextId: Id)
    requires Inv(w, open, blockSize, nextId) && Finished(w) && w.blocks[w.cooked[0]].failed
    ensures Inv(Returned(w), open, blockSize, nextId)
  {
    var w' := Returned(w);
    ReturnLists(w, open, blockSize);
    IdsKept(w, w', nextId);
    ReturnQueue(w, blockSize);
    hide Mapped, Filling, Uploading, QueueOk, IdsOk;
    assert forall k: nat :: k < |w.chunks| && StagedAs(w, k) ==> StagedAs(w', k);
  }

  lemma ReturnQueue(w: State, blockSize: nat)
    requires Uploading(w, blockSize) && QueueOk(w) && Unrepeated(w.cooked) && Finished(w)
    ensures Uploading(Returned(w), blockSize) && QueueOk(Returned(w))
  {
    var w' := Returned(w);
    FrontGone(w.cooked);
    forall q | q in w'.cooked ensures InHand(w', q, blockSize) { assert InHand(w, q, blockSize); }
    assert InHand(w, w.cooked[0], blockSize);
    assert forall x :: x in w.queue ==> x.block in QueueBlocks(w.queue);
  }

  lemma IdsKept(w: State, w': State, nextId: Id)
    requires IdsOk(w, nextId) && w'.blob == w.blob && w'.listMap == w.listMap && w'.chunks == w.chunks
    ensures IdsOk(w', nextId)
  {
  }

  lemma ReturnLists(w: State, open: set<Ref>, blockSize: nat)
    requires Mapped(w) && Filling(w, open, blockSize) && Finished(w) && InHand(w, w.cooked[0], blockSize)
    requires w.blocks[w.cooked[0]].failed
    ensures Mapped(Returned(w)) && Filling(Returned(w), open, blockSize)
  {
    FrontGone(w.cooked);
  }

  /** waitAndFreeUploadedBlocks on an uploaded block: its chunk is staged and the block goes. */
  ghost predicate Retired(w: State, w': State)
  {
    && w.cooked != [] && w.cooked[0] in w.blocks && 0 <= w.blocks[w.cooked[0]].id
    && w' == w.(cooked := w.cooked[1..], nodes := w.nodes - {w.blocks[w.cooked[0]].id}, blocks := w'.blocks)
    && (forall r :: (r in w'.cooked || r in w.cooking) && r in w.blocks ==>
          r in w'.blocks && w'.blocks[r] == w.blocks[r])
  }

  lemma RetireKeeps(w: State, w': State, open: set<Ref>, blockSize: nat, nextId: Id)
    requires Inv(w, open, blockSize, nextId) && Finished(w) && !w.blocks[w.cooked[0]].failed && Retired(w, w')
    ensures Inv(w', open, blockSize, nextId)
  {
    RetireLists(w, w', open, blockSize);
    RetireQueue(w, w', blockSize);
    hide Mapped, Filling, QueueOk, Unrepeated;
    assert InHand(w, w.cooked[0], blockSize);
    assert forall k: nat :: k < |w.chunks| && StagedAs(w, k) ==> StagedAs(w', k);
  }

  lemma RetireLists(w: State, w': State, open: set<Ref>, blockSize: nat)
    requires Mapped(w) && Filling(w, open, blockSize) && w.cooked != [] && Retired(w, w')
    ensures Mapped(w') && Filling(w', open, blockSize)
  {
    FrontGone(w.cooked);
  }

  lemma RetireQueue(w: State, w': State, blockSize: nat)
    requires Uploading(w, blockSize) && QueueOk(w) && Mapped(w) && Finished(w) && Retired(w, w')
    ensures Uploading(w', blockSize) && QueueOk(w')
  {
    FrontGone(w.cooked);
    forall q | q in w'.cooked ensures InHand(w', q, blockSize) { assert InHand(w, q, blockSize); }
    assert InHand(w, w.cooked[0], blockSize);
    forall x | x in w.queue ensures x.block in w'.cooked { assert x.block in QueueBlocks(w.queue); }
  }

  function PutChunk(chunks: seq<Bytes>, k: nat, c: Bytes): seq<Bytes>
    requires k <= |chunks|
  {
    if k < |chunks| then chunks[k := c] else chunks + [c]
  }

  /** Bytes copied into the open block, which is the last of the file or the next one. */
  ghost predicate Filled(w: State, w': State, r: Ref, c: Bytes, blockSize: nat)
  {
    && r in w.cooking && r in w.blocks && |w.chunks| - 1 <= w.blocks[r].id <= |w.chunks| && 0 <= w.blocks[r].id
    && r in w'.blocks
    && w' == w.(chunks := PutChunk(w.chunks, w.blocks[r].id, c), blocks := w.blocks[r := w'.blocks[r]])
    && w'.blocks[r].id == w.blocks[r].id && w'.blocks[r].state == Closed && w'.blocks[r].dirty && !w'.blocks[r].synced
    && Carries(w'.blocks[r], w'.chunks, blockSize)
  }

  lemma FillKeeps(w: State, w': State, r: Ref, c: Bytes, open: set<Ref>, blockSize: nat, nextId: Id)
    requires Inv(w, open, blockSize, nextId) && Filled(w, w', r, c, blockSize)
    ensures Inv(w', open - {r}, blockSize, nextId)
  {
    FillLists(w, w', r, c, open, blockSize);
    FillQueue(w, w', r, c, blockSize, nextId);
    hide Filling, Uploading, QueueOk, IdsOk;
    assert forall j: nat :: j < |w.chunks| && j != w.blocks[r].id && StagedAs(w, j) ==> StagedAs(w', j);
  }

  lemma FillLists(w: State, w': State, r: Ref, c: Bytes, open: set<Ref>, blockSize: nat)
    requires Mapped(w) && Filling(w, open, blockSize) && Filled(w, w', r, c, blockSize)
    ensures Mapped(w') && Filling(w', open - {r}, blockSize)
  {
  }

  lemma FillQueue(w: State, w': State, r: Ref, c: Bytes, blockSize: nat, nextId: Id)
    requires Mapped(w) && Uploading(w, blockSize) && QueueOk(w) && IdsOk(w, nextId) && Filled(w, w', r, c, blockSize)
    ensures Uploading(w', blockSize) && QueueOk(w') && IdsOk(w', nextId)
  {
    forall q | q in w.cooked ensures InHand(w', q, blockSize) { assert InHand(w, q, blockSize); }
  }

  /** What the workers may change while the handle waits: results of the blocks in hand. */
  ghost predicate Progress(w: State, w': State)
  {
    && w' == w.(blob := w'.blob, queue := w'.queue, blocks := w'.blocks)
    && w'.blob.committed == w.blob.committed && w'.blob.single == w.blob.single
    && w'.blocks.Keys == w.blocks.Keys
    && (forall r :: r in w.blocks && r !in w.cooked ==> w'.blocks[r] == w.blocks[r])
    && (forall r :: r in w.blocks ==> w'.blocks[r].id == w.blocks[r].id && w'.blocks[r].data == w.blocks[r].data)
  }

  lemma AttemptProgress(w: State, w': State, x: WorkItem, ok: bool, open: set<Ref>, blockSize: nat, nextId: Id)
    requires Inv(w, open, blockSize, nextId) && Attempted(w, w', x, ok)
    ensures Progress(w, w')
  {
    assert x.block in QueueBlocks(w.queue);
  }

  class Writer {
    const pool: BlockPool
    const blockSize: nat
    const prefetch: nat
    var nodes: map<nat, Ref>
    var cooked: seq<Ref>
    var cooking: seq<Ref>
    var listMap: map<nat, Id>
    var size: nat
    var blob: Blob
    var nextId: Id
    var queue: set<WorkItem>
    var dirty: bool
    ghost var chunks: seq<Bytes>
    ghost var others: map<Ref, Block>    // the blocks held by other handles, as they are
    ghost var faults: nat                // storage calls that have failed
    ghost var starved: nat               // how often the pool had no block left and could not map one

    ghost function St(): State
      reads this, pool
    {
      State(pool.blocks, nodes, cooked, cooking, listMap, blob, queue, chunks)
    }

    ghost predicate Valid(open: set<Ref>)
      reads this, pool
    {
      && pool.Valid() && pool.blockSize == blockSize > 0
      && Owned(pool.blocks.Keys, pool.free, cooked, cooking, others.Keys) && Theirs(pool.blocks, others)
      && Chunked(chunks, blockSize, size) && |chunks| <= MAX_BLOCKS
      && var kept := Inv(St(), open, blockSize, nextId); kept
    }

    /** Blocks are held though the handle is not marked dirty; CloseFile relies on this not happening. */
    ghost predicate Stray() reads this { nodes.Keys != {} && !dirty }

    /** CreateFile: an empty blob, and a handle that holds no block. */
    constructor (pool: BlockPool, prefetch: nat, ghost others: map<Ref, Block>)
      requires pool.Valid() && pool.blockSize > 0
      requires Owned(pool.blocks.Keys, pool.free, [], [], others.Keys) && Theirs(pool.blocks, others)
      ensures Valid({}) && this.pool == pool && this.others == others && chunks == []
      ensures Settled(St(), blockSize, size) && !Stray() && Content(blob) == []
      ensures nodes == map[] && cooked == [] && cooking == [] && faults == 0 && starved == 0
    {
      this.pool, this.prefetch, this.others, blockSize := pool, prefetch, others, pool.blockSize;
      faults, starved := 0, 0;
      nodes, cooked, cooking, listMap, size := map[], [], [], map[], 0;
      blob, nextId, queue, dirty, chunks := PutBlob([]), 0, {}, false, [];
      new;
      hide Inv, Owned, Sound, Theirs, Settled, Chunked, Unfailed;
      NewFile(St(), blockSize);
    }

    /** Put Block: a failed call may still have staged the data. */
    method StageData(id: Id, data: Bytes) returns (ok: bool)
      modifies this`blob, this`faults
      ensures blob == PutBlock(old(blob), id, data) || (!ok && blob == old(blob))
      ensures faults == old(faults) + (if ok then 0 else 1)
    {
      ok := false;
      if * {
        blob := PutBlock(blob, id, data);
        ok := *;
      }
      if !ok { faults := faults + 1; }
    }

    /** upload: a worker's attempt at an item of the queue. */
    method Attempt(x: WorkItem) returns (ok: bool)
      requires x in queue && x.block in pool.blocks
      requires var b := pool.blocks[x.block]; b.offset <= b.endIndex <= b.offset + |b.data|
      modifies this`queue, this`blob, this`faults, pool`blocks
      ensures Attempted(old(St()), St(), x, ok) && faults == old(faults) + (if ok then 0 else 1)
    {
      var b := pool.blocks[x.block];
      queue := queue - {x};
      ok := StageData(x.blockId, b.data[..b.endIndex - b.offset]);
      if ok {
        pool.blocks := pool.blocks[x.block := b.(synced := true, dirty := false, state := Ready)];
      } else if x.failCnt + 1 > MAX_FAIL_CNT {
        pool.blocks := pool.blocks[x.block := b.(failed := true, state := Ready)];
      } else {
        queue := queue + {Again(x)};
      }
    }

    method Upload(x: WorkItem, ghost open: set<Ref>) returns (ok: bool)
      requires Valid(open) && x in queue
      modifies this`queue, this`blob, this`faults, pool`blocks
      ensures Valid(open) && Attempted(old(St()), St(), x, ok) && Progress(old(St()), St())
      ensures faults == old(faults) + (if ok then 0 else 1) && (ok && Unfailed(old(St())) ==> Unfailed(St()))
    {
      hide Inv, Attempted, Owned, Sound, Progress, Chunked, Unfailed;
      ItemFacts(St(), x, open, blockSize, nextId);
      ok := Attempt(x);
      AttemptKeeps(old(St()), St(), x, ok, open, blockSize, nextId);
      AttemptProgress(old(St()), St(), x, ok, open, blockSize, nextId);
      AttemptFails(old(St()), St(), x, ok);
      PoolKept(old(St()), St(), pool.free, pool.nextRef, pool.maxBlocks, blockSize, others);
    }

    /** Any number of attempts by the workers at any items. */
    method Workers(ghost open: set<Ref>)
      requires Valid(open)
      modifies this`queue, this`blob, this`faults, pool`blocks
      ensures Valid(open) && Progress(old(St()), St())
      ensures faults >= old(faults) && (faults == old(faults) && Unfailed(old(St())) ==> Unfailed(St()))
    {
      hide Inv, Attempted, Owned, Sound, Progress, Chunked, Unfailed;
      ProgressNone(St());
      var n: nat :| true;
      while n > 0 && queue != {}
        invariant Valid(open) && Progress(old(St()), St())
        invariant faults >= old(faults) && (faults == old(faults) && Unfailed(old(St())) ==> Unfailed(St()))
        decreases n
      {
        var x :| x in queue;
        ghost var w := St();
        var ok := Upload(x, open);
        ProgressMore(old(St()), w, St());
        n := n - 1;
      }
    }

    /** Receives from the channel of a block in hand: other items may be finished first. */
    method Await(r: Ref, ghost open: set<Ref>)
      requires Valid(open) && r in cooked
      modifies this`queue, this`blob, this`faults, pool`blocks
      ensures Valid(open) && Progress(old(St()), St()) && r in pool.blocks && pool.blocks[r].state == Ready
      ensures faults >= old(faults) && (faults == old(faults) && Unfailed(old(St())) ==> Unfailed(St()))
    {
      hide Inv, Attempted, Owned, Sound, Progress, Chunked, Unfailed;
      Workers(open);
      InHandFacts(St(), r, open, blockSize, nextId);
      if pool.blocks[r].state == Ready { return; }
      var x :| x in queue && x.block == r;
      while pool.blocks[r].state == Pending
        invariant Valid(open) && Progress(old(St()), St()) && r in pool.blocks && pool.blocks[r].state != Closed
        invariant x.block == r && (pool.blocks[r].state == Pending ==> x in queue && x.failCnt <= MAX_FAIL_CNT)
        invariant faults >= old(faults) && (faults == old(faults) && Unfailed(old(St())) ==> Unfailed(St()))
        decreases MAX_FAIL_CNT - x.failCnt
      {
        ghost var w := St();
        var ok := Upload(x, open);
        ProgressMore(old(St()), w, St());
        InHandFacts(St(), r, open, blockSize, nextId);
        AttemptOutcome(w, St(), x, ok);
        x := Again(x);
      }
    }

    /** waitAndFreeUploadedBlocks on the front block: wait for it, then free it or put it back. */
    method FreeFront() returns (freed: bool)
      requires Valid({}) && cooked != []
      modifies this`nodes, this`cooked, this`cooking, this`blob, this`faults, this`queue, pool`free, pool`blocks
      ensures Valid({}) && Waited(old(St()), St()) && |cooked| == |old(cooked)| - 1
      ensures faults >= old(faults)
      ensures faults == old(faults) && Unfailed(old(St())) ==> Unfailed(St()) && cooking == old(cooking)
      ensures |cooking| == |old(cooking)| + (if freed then 0 else 1)
    {
      hide Inv, Owned, Sound, Progress, Chunked, Waited, Unrepeated, Finished, Retired, Unfailed;
      var r := cooked[0];
      Await(r, {});
      ghost var w := St();
      FrontFacts(w, blockSize, nextId);
      FrontUnfailed(w);
      ProgressPlaces(old(St()), w);
      freed := !pool.blocks[r].failed;
      if freed {
        RetireFront(r);
        RetiredUnfailed(w, St(), {}, blockSize, nextId);
      } else {
        ReturnKeeps(w, {}, blockSize, nextId);
        OwnedMoved(pool.blocks.Keys, pool.free, cooked, cooking, others.Keys);
        TheirsKept(pool.blocks, pool.blocks[r := pool.blocks[r].(state := Closed)], pool.free, cooked, cooking, others,
                   r);
        SoundUpdated(pool.free, pool.blocks, r, pool.blocks[r].(state := Closed), pool.nextRef, pool.maxBlocks,
                     blockSize);
        pool.blocks := pool.blocks[r := pool.blocks[r].(state := Closed)];
        cooked, cooking := cooked[1..], [r] + cooking;
      }
      WaitedStep(old(St()), w, St(), freed, blockSize, nextId);
    }

    method RetireFront(r: Ref)
      requires Valid({}) && Finished(St()) && r == cooked[0] && !pool.blocks[r].failed
      modifies this`nodes, this`cooked, pool`free, pool`blocks
      ensures Valid({}) && Retired(old(St()), St())
    {
      hide Inv, Chunked, Unrepeated, Owned, Sound, Theirs;
      ghost var w := St();
      FrontFacts(w, blockSize, nextId);
      nodes := nodes - {pool.blocks[r].id};
      cooked := cooked[1..];
      pool.GiveBack(r, w.cooked, cooking, cooked, cooking, others);
      RetireKeeps(w, St(), {}, blockSize, nextId);
    }

    /** waitAndFreeUploadedBlocks: until cnt blocks are free or none is in hand. */
    method WaitAndFreeUploadedBlocks(cnt: nat)
      requires Valid({})
      modifies this`nodes, this`cooked, this`cooking, this`blob, this`faults, this`queue, pool`free, pool`blocks
      ensures Valid({}) && Waited(old(St()), St())
      ensures cnt >= |old(cooked)| ==> cooked == []
      ensures |cooked| + |cooking| + cnt >= |old(cooked)| + |old(cooking)|
      ensures cooked == [] || |cooked| + |cooking| + cnt == |old(cooked)| + |old(cooking)|
      ensures faults >= old(faults) && (faults == old(faults) && Unfailed(old(St())) ==> cooking == old(cooking))
    {
      hide Inv, Owned, Sound, Progress, Chunked, Waited, Unfailed;
      WaitedNone(St(), blockSize, nextId);
      var left := cnt;
      while cooked != [] && left > 0
        invariant Valid({}) && Waited(old(St()), St())
        invariant cnt >= |old(cooked)| ==> left >= |cooked|
        invariant |cooked| + |cooking| + (cnt - left) == |old(cooked)| + |old(cooking)| && 0 <= left <= cnt
        invariant faults >= old(faults)
        invariant faults == old(faults) && Unfailed(old(St())) ==> Unfailed(St()) && cooking == old(cooking)
        decreases |cooked|
      {
        ghost var w := St();
        var freed := FreeFront();
        WaitedMore(old(St()), w, St());
        if freed { left := left - 1; }
      }
    }

    /** lineupUpload of a dirty block. */
    method LineupUpload(i: nat, ghost open: set<Ref>)
      requires Valid(open) && i < |cooking| && cooking[i] !in open
      modifies this`cooked, this`cooking, this`listMap, this`queue, this`nextId, pool`blocks
      ensures Valid(open) && nextId == old(nextId) + 1 && WentUp(old(St()), St(), i, old(nextId))
    {
      hide Inv, Owned, Sound, Chunked;
      LineupKeeps(St(), i, open, blockSize, nextId);
      LineupOwned(St(), i, nextId, pool.free, others.Keys);
      TheirsKept(pool.blocks, pool.blocks[cooking[i] := pool.blocks[cooking[i]].(state := Pending, failed := false)],
                 pool.free, cooked, cooking, others, cooking[i]);
      SoundUpdated(pool.free, pool.blocks, cooking[i], pool.blocks[cooking[i]].(state := Pending, failed := false),
                   pool.nextRef, pool.maxBlocks, blockSize);
      var r := cooking[i];
      var b := pool.blocks[r];
      listMap := listMap[b.id := nextId];
      queue := queue + {WorkItem(r, nextId, 0)};
      cooking := cooking[..i] + cooking[i + 1..];
      pool.blocks := pool.blocks[r := b.(state := Pending, failed := false)];
      cooked := cooked + [r];
      nextId := nextId + 1;
    }

    /** stageBlocks: up to cnt dirty blocks, from the front of the list. */
    method StageBlocks(cnt: nat, ghost open: set<Ref>)
      requires Valid(open) && Opened(St(), open)
      modifies this`cooked, this`cooking, this`listMap, this`queue, this`nextId, pool`blocks
      ensures Valid(open) && StagedMore(old(St()), St(), open) && Opened(St(), open)
      ensures |cooking| + cnt >= |old(cooking)|
      ensures |cooking| + cnt == |old(cooking)| || forall r :: r in cooking ==> r in open
      ensures open == {} && cnt >= |old(cooking)| ==> cooking == []
      ensures old(cooked) == [] ==> Unfailed(St())
    {
      hide Inv, Owned, Sound, Chunked, StagedMore, LinedUp, WentUp, Unfailed;
      StagedNone(St(), open, blockSize, nextId);
      NoneUnfailed(St());
      var i, left := 0, cnt;
      while i < |cooking| && left > 0
        invariant Valid(open) && StagedMore(old(St()), St(), open) && Opened(St(), open)
        invariant i <= |cooking| && |cooking| == |old(cooking)| - (cnt - left) && 0 <= left <= cnt
        invariant open == {} ==> i == 0
        invariant forall j :: 0 <= j < i ==> cooking[j] in open
        invariant old(cooked) == [] ==> Unfailed(St())
        decreases |cooking| - i
      {
        ghost var w := St();
        FillingFacts(w, i, open, blockSize, nextId);
        if pool.blocks[cooking[i]].dirty {
          LineupUpload(i, open);
          StagedStep(old(St()), w, St(), i, nextId - 1, open);
          UpUnfailed(w, St(), i, nextId - 1);
          left := left - 1;
        } else {
          i := i + 1;
        }
      }
    }

    /** Put Block List: refused when an id is not known to the blob. */
    method CommitData(ids: seq<Id>) returns (ok: bool)
      modifies this`blob, this`faults
      ensures ok ==> (forall i :: 0 <= i < |ids| ==> Known(old(blob), ids[i])) && blob == PutBlockList(old(blob), ids)
      ensures !ok ==> blob == old(blob)
      ensures faults >= old(faults)
      ensures faults == old(faults) ==> (ok <==> forall i :: 0 <= i < |ids| ==> Known(old(blob), ids[i]))
    {
      ok := *;
      if !ok { faults := faults + 1; }
      if ok && forall i :: 0 <= i < |ids| ==> Known(blob, ids[i]) {
        blob := PutBlockList(blob, ids);
      } else {
        ok := false;
      }
    }

    /** Three rounds of uploading whatever is left to upload. */
    method UploadAll() returns (rounds: nat)
      requires Valid({}) && Ample(St())
      modifies this`nodes, this`cooked, this`cooking, this`listMap, this`blob, this`faults
      modifies this`queue, this`nextId, pool`free, pool`blocks
      ensures Valid({}) && cooked == [] && rounds <= 3 && (rounds < 3 ==> cooking == [])
      ensures nodes.Keys <= old(nodes.Keys)
      ensures blob.committed == old(blob.committed) && blob.single == old(blob.single)
      ensures faults >= old(faults) && (faults == old(faults) ==> cooking == [])
    {
      hide Inv, Owned, Sound, Chunked, Waited, StagedMore, Unfailed;
      rounds := 0;
      while rounds < 3
        invariant Valid({}) && rounds <= 3 && (cooked == [] || (rounds == 0 && Ample(St())))
        invariant nodes.Keys <= old(nodes.Keys)
        invariant blob.committed == old(blob.committed) && blob.single == old(blob.single)
        invariant faults >= old(faults) && (rounds >= 2 && faults == old(faults) ==> cooking == [])
      {
        if cooking == [] { break; }
        HeldBound(St(), blockSize, nextId);
        ghost var w := St();
        StageBlocks(MAX_BLOCKS, {});
        StagedBlob(w, St());
        HeldBound(St(), blockSize, nextId);
        ghost var v := St();
        WaitAndFreeUploadedBlocks(MAX_BLOCKS);
        WaitedBlob(v, St());
        rounds := rounds + 1;
      }
    }

    /** commitBlocks: when it succeeds the blob holds the file, and nothing is left to upload. */
    method CommitBlocks() returns (ok: bool)
      requires Valid({}) && Ample(St())
      modifies this`nodes, this`cooked, this`cooking, this`listMap, this`blob, this`faults
      modifies this`queue, this`nextId, pool`free, pool`blocks
      ensures Valid({}) && cooked == [] && nodes.Keys <= old(nodes.Keys)
      ensures ok ==> Content(blob) == Join(chunks) && cooking == [] && queue == {}
      ensures !ok ==> Content(blob) == old(Content(blob))
      ensures faults >= old(faults) && (!ok ==> faults > old(faults))
    {
      hide Inv, Owned, Sound, Chunked, Join, Known, Latest, Flatten, Ascending;
      var rounds := UploadAll();
      if rounds == 3 {
        var dirty := AnyDirty();
        if dirty { return false; }
      }
      var offsets := SortedKeys(listMap);
      var ids := IdsAt(listMap, offsets);
      CommitKeeps(St(), offsets, ids, blockSize, nextId);
      ok := CommitData(ids);
    }

    /** Is a block left over that was not uploaded? */
    method AnyDirty() returns (dirty: bool)
      requires Valid({})
      ensures dirty <==> cooking != []
    {
      hide Inv, Owned, Sound, Chunked;
      for i := 0 to |cooking|
        invariant i == 0
      {
        FillingFacts(St(), i, {}, blockSize, nextId);
        if pool.blocks[cooking[i]].dirty { return true; }
      }
      return false;
    }

    /** Waits for room, takes a block for a new index and puts it on the list; a block for bytes the
        file already has goes to the front. */
    method OpenBlock(index: nat) returns (ok: bool, r: Ref)
      requires Valid({}) && index !in nodes && Ample(St()) && FullUploads(St(), blockSize)
      modifies this`nodes, this`cooked, this`cooking, this`blob, this`faults, this`starved, this`queue, pool
      ensures faults >= old(faults) && starved == old(starved) + (if ok then 0 else 1) && (!ok ==> pool.free == [])
      ensures ok ==> Valid({r}) && r in cooking && OpenedAt(pool.blocks, nodes, r, index, blockSize)
      ensures !ok ==> Valid({}) && nodes.Keys <= old(nodes.Keys)
      ensures |cooking| >= |old(cooking)| && FullUploads(St(), blockSize) && Ample(St())
      ensures ok ==> cooked == [] || |cooked| + |cooking| <= Max(prefetch, |old(cooked)| + |old(cooking)|)
      ensures blob.committed == old(blob.committed) && blob.single == old(blob.single)
    {
      hide Inv, Owned, Sound, Chunked, Waited, Taken, FullUploads;
      if |cooked| + |cooking| >= prefetch {
        ghost var w := St();
        WaitAndFreeUploadedBlocks(1);
        WaitedFull(w, St(), blockSize);
      }
      ghost var w, free := St(), pool.free;
      ok, r := pool.MustGet();
      if !ok {
        starved := starved + 1;
        return;
      }
      ghost var taken := pool.blocks;
      pool.blocks := pool.blocks[r := pool.blocks[r].(id := index, offset := index * blockSize)];
      cooking := if index * blockSize < size then [r] + cooking else cooking + [r];
      nodes := nodes[index := r];
      OpenKeeps(w, St(), free, pool.free, taken, r, index, pool.nextRef, pool.maxBlocks, blockSize, nextId, others);
    }

    /** download of a block the file already has, for an append into it. `serves` says whether the storage
        serves one of the attempts; it is asked for all bytes up to the size of the handle. */
    method Download(r: Ref, serves: bool) returns (fetched: bool)
      requires r in pool.blocks && |pool.blocks[r].data| == blockSize && pool.blocks[r].offset < size
      modifies pool`blocks
      ensures r in pool.blocks && pool.blocks == old(pool.blocks)[r := pool.blocks[r]]
      ensures Delivered(old(pool.blocks[r]), pool.blocks[r], Content(blob), blockSize, size, fetched)
      ensures fetched == (serves && size <= |Content(blob)|)
    {
      var c, b := Content(blob), pool.blocks[r];
      fetched := serves && size <= |c|;
      if fetched {
        var n := Min(blockSize, size - b.offset);
        b := b.(data := c[b.offset..b.offset + n] + b.data[n..], endIndex := b.offset + n);
      } else {
        var data: Bytes :| |data| == blockSize by { assert |Zeros(blockSize)| == blockSize; }
        b := b.(data := data, endIndex := b.offset, failed := true);
      }
      pool.blocks := pool.blocks[r := b.(state := Closed)];
    }

    method Refetch(r: Ref, index: nat, serves: bool) returns (fetched: bool)
      requires Valid({r}) && r in cooking && OpenedAt(pool.blocks, nodes, r, index, blockSize)
      requires index * blockSize < size
      modifies this`queue, this`blob, this`faults, pool`blocks
      ensures Valid({r}) && blob.committed == old(blob.committed) && blob.single == old(blob.single)
      ensures FullUploads(old(St()), blockSize) ==> FullUploads(St(), blockSize)
      ensures r in pool.blocks
      ensures Delivered(old(pool.blocks[r]), pool.blocks[r], Content(blob), blockSize, size, fetched)
      ensures fetched == (serves && size <= |Content(blob)|) && faults >= old(faults)
    {
      hide Inv, Owned, Sound, Chunked, Progress, FullUploads, Delivered, Theirs, Unfailed;
      OpenNotUploading(St(), r, {r}, blockSize, nextId);
      Workers({r});
      ghost var w := St();
      ProgressOpen(old(St()), w, r, blockSize);
      fetched := Download(r, serves);
      DeliveredSize(w.blocks[r], pool.blocks[r], Content(blob), blockSize, size, fetched);
      SoundUpdated(pool.free, w.blocks, r, pool.blocks[r], pool.nextRef, pool.maxBlocks, blockSize);
      TheirsKept(w.blocks, pool.blocks, pool.free, cooked, cooking, others, r);
      ReopenKeeps(w, St(), r, blockSize, nextId);
    }

    /** getOrCreateBlock for a block the handle does not hold. */
    method CreateBlock(index: nat, serves: bool) returns (ok: bool, r: Ref, refetched: bool, fetched: bool)
      requires Valid({}) && Settled(St(), blockSize, size) && index == size / blockSize && index !in nodes
      modifies this`nodes, this`cooked, this`cooking, this`listMap, this`blob, this`faults, this`starved, this`queue
      modifies this`nextId, pool
      ensures faults >= old(faults) && starved == old(starved) + (if ok then 0 else 1) && (!ok ==> pool.free == [])
      ensures Settled(St(), blockSize, size) && blob.committed == old(blob.committed) && blob.single == old(blob.single)
      ensures !ok ==> Valid({}) && !refetched && nodes.Keys <= old(nodes.Keys)
      ensures ok ==> Valid({r}) && Target(St(), r, blockSize, size, refetched, fetched)
      ensures ok ==> |cooking| <= MIN_WRITE_BLOCK || cooked != []
      ensures ok ==>
        refetched == Partial(chunks, blockSize) && (refetched ==> fetched == (serves && size <= |Content(blob)|))
    {
      hide Inv, Owned, Sound, Chunked, FullUploads, StagedMore, Delivered, Target, OpenedAt, Flatten, Theirs, Join;
      hide Partial;
      ok, r := OpenBlock(index);
      refetched, fetched := false, false;
      if !ok { return; }
      refetched, fetched := Reopen(r, index, serves);
      if |cooking| > MIN_WRITE_BLOCK {
        ghost var v, id := St(), nextId;
        StageBlocks(1, {r});
        StagedTarget(v, St(), r, blockSize, id, size, refetched, fetched);
        OneStaged(v, St(), r, nextId, blockSize);
      }
    }

    /** The new block is downloaded when the file has bytes in it, and opened. */
    method Reopen(r: Ref, index: nat, serves: bool) returns (refetched: bool, fetched: bool)
      requires Valid({r}) && FullUploads(St(), blockSize) && index == size / blockSize
      requires r in cooking && OpenedAt(pool.blocks, nodes, r, index, blockSize)
      modifies this`queue, this`blob, this`faults, pool`blocks
      ensures Valid({r}) && FullUploads(St(), blockSize) && faults >= old(faults)
      ensures blob.committed == old(blob.committed) && blob.single == old(blob.single)
      ensures Target(St(), r, blockSize, size, refetched, fetched) && Opened(St(), {r})
      ensures refetched == Partial(chunks, blockSize) && r in pool.blocks && pool.blocks[r].id == index
      ensures forall k :: 0 <= k < |chunks| && k != index ==> |chunks[k]| == blockSize
      ensures refetched ==> fetched == (serves && size <= |Content(blob)|)
    {
      hide Inv, Owned, Sound, Chunked, FullUploads, Delivered, Target, OpenedAt, Flatten, Theirs, Join, Partial;
      fetched := false;
      ghost var w := St();
      OpenedFacts(w, r, index, blockSize);
      refetched := index * blockSize < size;
      if refetched {
        fetched := Refetch(r, index, serves);
      } else {
        pool.blocks := pool.blocks[r := pool.blocks[r].(state := Closed)];
        SoundUpdated(pool.free, w.blocks, r, pool.blocks[r], pool.nextRef, pool.maxBlocks, blockSize);
        TheirsKept(w.blocks, pool.blocks, pool.free, cooked, cooking, others, r);
        ReopenKeeps(w, St(), r, blockSize, nextId);
      }
      OpenTarget(w, St(), r, index, blockSize, size, refetched, fetched);
    }

    /** The last block has room, and the handle does not hold it any more. */
    ghost predicate Gone()
      reads this
    {
      Partial(chunks, blockSize) && |chunks| - 1 !in nodes
    }

    /** getOrCreateBlock for the byte after the last one. */
    method GetOrCreateBlock(serves: bool) returns (ok: bool, r: Ref, refetched: bool, fetched: bool)
      requires Valid({}) && Settled(St(), blockSize, size)
      modifies this`nodes, this`cooked, this`cooking, this`listMap, this`blob, this`faults, this`starved, this`queue
      modifies this`nextId, pool
      ensures faults >= old(faults) && (ok ==> starved == old(starved))
      ensures !ok ==> Short(size, blockSize, old(starved), starved, pool.free)
      ensures Settled(St(), blockSize, size) && blob.committed == old(blob.committed) && blob.single == old(blob.single)
      ensures !ok ==>
        Valid({}) && !refetched && nodes.Keys <= old(nodes.Keys) && (Partial(chunks, blockSize) ==> old(Gone()))
      ensures ok ==> size / blockSize < MAX_BLOCKS && Valid({r}) && Target(St(), r, blockSize, size, refetched, fetched)
      ensures ok ==> refetched == old(Gone()) && (refetched ==> fetched == (serves && size <= |Content(blob)|))
    {
      hide Inv, Owned, Chunked, FullUploads, Target, Theirs, Flatten, Join;
      var index := size / blockSize;
      NextIndex(chunks, blockSize, size);
      refetched, fetched := false, false;
      AtLimit(size, blockSize);
      if index >= MAX_BLOCKS { return false, 0, false, false; }
      if index in nodes {
        ok, r := true, nodes[index];
        FoundTarget(St(), r, index, blockSize, nextId, size);
      } else {
        ok, r, refetched, fetched := CreateBlock(index, serves);
      }
    }

    /** The storage cannot or does not serve the download of the last block. */
    ghost predicate Unserved(serves: bool)
      reads this
    {
      !serves || |Content(blob)| < size
    }

    /** Copies data behind the last byte of the block for the next byte. */
    method Fill(r: Ref, d: Bytes, ghost refetched: bool, ghost fetched: bool)
      requires Valid({r}) && Settled(St(), blockSize, size) && Target(St(), r, blockSize, size, refetched, fetched)
      requires size / blockSize < MAX_BLOCKS && r in pool.blocks && pool.blocks[r].offset <= size
      requires |pool.blocks[r].data| == blockSize
      requires 0 < |d| <= blockSize - (size - pool.blocks[r].offset)
      modifies this`size, this`chunks, pool`blocks
      ensures Valid({}) && Settled(St(), blockSize, size) && size == old(size) + |d|
      ensures var b := old(pool.blocks[r]); var at := old(size) - b.offset;
        && 0 <= at <= |b.data| && Join(chunks) == ReBase(old(chunks), b, at, refetched) + d
        && Rebased(old(chunks), ReBase(old(chunks), b, at, refetched), refetched && !fetched)
        && (at + |d| == blockSize ==> !Partial(chunks, blockSize))
      ensures chunks != [] && |chunks| - 1 in nodes
    {
      hide Inv, Owned, Sound, Chunked, FullUploads, Flatten, Join, Target, Theirs, Partial, Settled, Rebased, ReBase;
      TargetRoom(St(), r, blockSize, size, refetched, fetched);
      ghost var w, was := St(), size;
      SettledContent(w, blockSize, size);
      TargetWhole(w, r, blockSize, size, refetched, fetched);
      var b := pool.blocks[r];
      var at := size - b.offset;
      b := b.(data := Overlay(b.data, at, d), dirty := true);
      if b.endIndex < size + |d| {
        b := b.(endIndex := size + |d|);
        size := size + |d|;
      }
      pool.blocks := pool.blocks[r := b];
      chunks := PutChunk(chunks, b.id, b.data[..at + |d|]);
      assert b.data[..at + |d|] == w.blocks[r].data[..at] + d;
      ChunkGrows(w, r, d, blockSize, was, refetched, fetched);
      TheirsKept(w.blocks, pool.blocks, pool.free, cooked, cooking, others, r);
      WriteKeeps(w, St(), r, d, pool.free, pool.nextRef, pool.maxBlocks, blockSize, nextId, was, refetched, fetched);
      LastHeld(w, St(), r, blockSize, nextId, was, refetched, fetched);
      SettledMore(w, St(), blockSize, was, size);
    }

    /** One round of WriteFile: as much of the data as fits the block goes behind the last byte. The last
        block is lost exactly when it is gone and cannot be downloaded. */
    method Append(data: Bytes, serves: bool) returns (ok: bool, n: nat, ghost lost: bool, ghost base: Bytes)
      requires Valid({}) && Settled(St(), blockSize, size) && data != []
      modifies this`nodes, this`cooked, this`cooking, this`listMap, this`blob, this`faults, this`queue
      modifies this`nextId, this`size, this`chunks, this`starved, pool
      ensures faults >= old(faults) && (ok ==> starved == old(starved))
      ensures !ok ==> Short(size, blockSize, old(starved), starved, pool.free)
      ensures Valid({}) && Settled(St(), blockSize, size) && Content(blob) == old(Content(blob))
      ensures ok == (n > 0) && n <= |data| && Join(chunks) == base + data[..n] && Rebased(old(chunks), base, lost)
      ensures !ok ==>
        nodes.Keys <= old(nodes.Keys) && chunks == old(chunks) && (Partial(chunks, blockSize) ==> old(Gone()))
      ensures lost == (ok && old(Gone()) && old(Unserved(serves)))
      ensures ok ==> chunks != [] && |chunks| - 1 in nodes && (n < |data| ==> !Partial(chunks, blockSize))
    {
      hide Inv, Owned, Sound, Chunked, FullUploads, Flatten, Join, Target, Progress, Theirs, Partial, Settled, ReBase;
      hide Rebased, Unfailed, Short;
      base, lost, n := Join(chunks), false, 0;
      AsItWas(chunks);
      ghost var start := St();
      Workers({});
      ProgressSettled(start, St(), blockSize, size);
      ProgressPlaces(start, St());
      var r, refetched, fetched;
      ok, r, refetched, fetched := GetOrCreateBlock(serves);
      if !ok { return; }
      TargetRoom(St(), r, blockSize, size, refetched, fetched);
      ghost var b := pool.blocks[r];
      n := Min(blockSize - (size - pool.blocks[r].offset), |data|);
      base, lost := ReBase(chunks, b, size - b.offset, refetched), refetched && !fetched;
      Fill(r, data[..n], refetched, fetched);
    }

    /** WriteFile at the end of the file. Fewer bytes than asked for are appended only when no block
        can be had or the file has as many blocks as a blob may have. The bytes of the last block are lost
        exactly when it has room, is held no more, and is not served: the storage refuses, or the blob is
        shorter than the file because the last flush failed. */
    method WriteFile(data: Bytes, serves: bool) returns (ok: bool, n: nat, ghost lost: bool, ghost base: Bytes)
      requires Valid({}) && Settled(St(), blockSize, size)
      modifies this, pool
      ensures Valid({}) && Settled(St(), blockSize, size) && Content(blob) == old(Content(blob))
      ensures others == old(others)
      ensures n <= |data| && ok == (n == |data|) && Join(chunks) == base + data[..n] && Rebased(old(chunks), base, lost)
      ensures Stray() ==> old(Stray())
      ensures n == 0 ==> chunks == old(chunks) && nodes.Keys <= old(nodes.Keys) && (Gone() ==> old(Gone()))
      ensures lost == (n > 0 && old(Gone()) && old(Unserved(serves)))
      ensures n > 0 ==> !Gone() && dirty
      ensures n == 0 ==> dirty == old(dirty)
      ensures faults >= old(faults) && (ok ==> starved == old(starved))
      ensures !ok ==> Short(size, blockSize, old(starved), starved, pool.free)
    {
      hide Inv, Owned, Sound, Chunked, FullUploads, Flatten, Join, Rebased, Settled, Partial, Progress, Theirs;
      hide Unfailed, Short;
      ok, n, lost, base := true, 0, false, Join(chunks);
      AsItWas(chunks);
      assert data[..0] == [];
      Workers({});
      ProgressSettled(old(St()), St(), blockSize, size);
      ProgressPlaces(old(St()), St());
      while n < |data|
        invariant Valid({}) && Settled(St(), blockSize, size) && Content(blob) == old(Content(blob))
        invariant others == old(others)
        invariant n <= |data| && Join(chunks) == base + data[..n] && (n > 0 ==> dirty)
        invariant if n == 0
          then unchanged(`chunks) && unchanged(`nodes) && unchanged(`dirty) && unchanged(`size) && !lost
              && base == Join(chunks)
          else chunks != [] && |chunks| - 1 in nodes && (n < |data| ==> !Partial(chunks, blockSize))
        invariant lost == (n > 0 && old(Gone()) && old(Unserved(serves))) && Rebased(old(chunks), base, lost)
        invariant faults >= old(faults) && starved == old(starved) && ok
      {
        var more;
        ghost var again, below, before := false, base, chunks;
        ok, more, again, below := Append(data[n..], serves);
        if n == 0 { lost, base := again, below; } else { Intact(before, below); }
        Appended(base, below, data, n, more);
        if !ok { return; }
        dirty := true;
        n := n + more;
      }
    }

    /** FlushFile: on success everything appended is in the blob and nothing is left to upload, whatever
        order the uploads finished in and however often they were retried; on failure, which needs a storage call
        that failed in this flush, the blob holds what it held before. */
    method FlushFile() returns (ok: bool)
      requires Valid({}) && Settled(St(), blockSize, size)
      modifies this, pool
      ensures Valid({}) && Settled(St(), blockSize, size) && chunks == old(chunks) && size == old(size)
      ensures others == old(others)
      ensures Stray() ==> old(Stray())
      ensures if ok then Content(blob) == Join(chunks) && queue == {} && nodes == map[] && !dirty
              else Content(blob) == old(Content(blob)) && dirty == old(dirty) && nodes.Keys <= old(nodes.Keys)
      ensures faults >= old(faults) && (!ok ==> faults > old(faults)) && starved == old(starved)
    {
      hide Inv, Owned, Sound, Chunked, Flatten, Join, Progress, Theirs, Unfailed;
      Workers({});
      ProgressSettled(old(St()), St(), blockSize, size);
      ProgressPlaces(old(St()), St());
      ok := CommitBlocks();
      FileSize(chunks, blockSize, size);
      if ok {
        dirty := false;
        NoNodes(St(), blockSize, nextId);
      }
    }

    /** CloseFile: once every handle has been closed successfully, the pool is full again. */
    method CloseFile() returns (ok: bool)
      requires Valid({}) && Settled(St(), blockSize, size) && !Stray()
      modifies this, pool
      ensures Valid({}) && Settled(St(), blockSize, size) && !Stray() && others == old(others) && chunks == old(chunks)
      ensures ok ==> cooked == [] && cooking == [] && (others == map[] ==> |pool.free| == pool.maxBlocks)
      ensures size == old(size)
      ensures if ok && old(dirty) then nodes == map[] && !dirty
              else nodes.Keys <= old(nodes.Keys) && dirty == old(dirty)
      ensures Content(blob) == if ok && old(dirty) then Join(chunks) else old(Content(blob))
      ensures faults >= old(faults) && (!ok ==> faults > old(faults)) && starved == old(starved)
    {
      hide Inv, Chunked, Flatten, Join, Settled, Theirs, Sound;
      ok := true;
      if dirty {
        ok := FlushFile();
        if !ok { return; }
      }
      NoBlocks(St(), blockSize, nextId);
      AllFree(pool.free, pool.blocks, pool.nextRef, pool.maxBlocks, blockSize);
    }

    /** When nothing was written since a successful flush, the blob is as long as the file and no block is held. */
    ghost predicate Tidy()
      reads this
    {
      !dirty ==> |Content(blob)| == size && nodes == map[]
    }

    /** One operation of a run. */
    method Perform(op: Op) returns (out: Outcome, ghost lost: bool)
      requires Valid({}) && Settled(St(), blockSize, size) && !Stray() && Tidy()
      modifies this, pool
      ensures Valid({}) && Settled(St(), blockSize, size) && !Stray() && Tidy() && Fits(op, out)
      ensures others == old(others)
      ensures size == old(size) + |Gain(op, out)| && (!lost ==> Join(chunks) == old(Join(chunks)) + Gain(op, out))
      ensures if out == Flushed(true) then |Content(blob)| == size && nodes == map[]
              else Content(blob) == old(Content(blob)) && (size == old(size) ==> nodes.Keys <= old(nodes.Keys))
      ensures !op.Write? ==> !lost
      ensures op.Write? ==> lost == (out.n > 0 && old(Gone()) && old(Unserved(op.serves))) && (out.n > 0 ==> !Gone())
      ensures op.Write? && out.n == 0 && Gone() ==> old(Gone())
      ensures !dirty ==> out == Flushed(true) || (!old(dirty) && size == old(size))
      ensures op == Close && out == Flushed(true) ==> cooked == [] && cooking == []
      ensures Extended(old(chunks), chunks, Gain(op, out), lost)
      ensures faults >= old(faults) && starved >= old(starved)
      ensures Promptly(op, out, faults == old(faults), starved == old(starved) && size < MAX_BLOCKS * blockSize)
    {
      hide Inv, Owned, Sound, Chunked, FullUploads, Flatten, Rebased, Settled, Partial, Join, Theirs, Extended;
      ghost var was, now := St(), size;
      match op {
        case Write(data, serves) =>
          ghost var base;
          var ok, n;
          ok, n, lost, base := WriteFile(data, serves);
          AppendSize(was, base, data[..n], chunks, blockSize, now, size, lost);
          RebasedExtends(was.chunks, chunks, base, data[..n], lost);
          out := Wrote(n);
        case Flush =>
          var ok := FlushFile();
          FileSize(chunks, blockSize, size);
          SameExtends(chunks);
          out, lost := Flushed(ok), false;
        case Close =>
          var ok := CloseFile();
          FileSize(chunks, blockSize, size);
          SameExtends(chunks);
          out, lost := Flushed(ok), false;
      }
    }

    /** What is known of the file after these operations: its length, its bytes unless some were lost, exactly when
        any were, when the blob is the file, and that nothing failed or was cut short without cause. */
    ghost predicate Told(log: Log)
      reads this
    {
      && Answers(log.ops, log.outs) && |log.lost| == |log.ops| && blockSize > 0
      && (UpToDate(log.outs) <==> |Content(blob)| == size) && (UpToDate(log.outs) ==> nodes == map[])
      && (!dirty ==> UpToDate(log.outs)) && (Gone() ==> FlushedSince(log.outs))
      && size == |Accepted(log.ops, log.outs)| && (true !in log.lost ==> Join(chunks) == Accepted(log.ops, log.outs))
      && (forall i :: 0 <= i < |log.ops| ==> LossAt(log.ops, log.outs, log.lost, i, blockSize))
      && AllPromptly(log.ops, log.outs, faults == 0, starved == 0 && size < MAX_BLOCKS * blockSize)
    }

    /** One more operation. */
    method Next(op: Op, ghost log: Log) returns (out: Outcome, ghost log': Log)
      requires Valid({}) && Settled(St(), blockSize, size) && !Stray() && Told(log)
      modifies this, pool
      ensures Valid({}) && Settled(St(), blockSize, size) && !Stray() && others == old(others)
      ensures Told(log') && log'.ops == log.ops + [op] && log'.outs == log.outs + [out] && Fits(op, out)
      ensures var lost := op.Write? && out.n > 0 && old(Gone()) && old(Unserved(op.serves));
        log'.lost == log.lost + [lost] && Extended(old(chunks), chunks, Gain(op, out), lost)
      ensures op == Close && out == Flushed(true) ==> cooked == [] && cooking == []
      ensures out == Flushed(true) ==> Content(blob) == Join(chunks)
    {
      hide Inv, Owned, Sound, Chunked, FullUploads, Flatten, Settled, Partial, Join, Accepted, UpToDate, Answers;
      hide Theirs, FlushedSince, LossAt, Fits, Gain, Careful, Extended, Promptly, AllPromptly;
      PartialSize(chunks, blockSize, size);
      SettledContent(St(), blockSize, size);
      ghost var l;
      out, l := Perform(op);
      GainSize(op, out);
      PromptMore(log.ops, log.outs, op, out, old(faults) == 0, faults == 0,
                 old(starved) == 0 && old(size) < MAX_BLOCKS * blockSize, starved == 0 && size < MAX_BLOCKS * blockSize,
                 faults == old(faults), starved == old(starved) && size < MAX_BLOCKS * blockSize);
      OneMore(log.ops, log.outs, log.lost, op, out, l, blockSize);
      SettledContent(St(), blockSize, size);
      log' := Log(log.ops + [op], log.outs + [out], log.lost + [l]);
    }

    /** Any sequence of appends, flushes and closes on a new file, with the workers at work between them. */
    method Session(ops: seq<Op>) returns (outs: seq<Outcome>, ghost lost: seq<bool>)
      requires Valid({}) && Settled(St(), blockSize, size) && !Stray() && chunks == [] && nodes == map[]
      modifies this, pool
      ensures Valid({}) && Settled(St(), blockSize, size) && !Stray() && Answers(ops, outs) && |lost| == |ops|
      ensures UpToDate(outs) ==> Content(blob) == Join(chunks)
      ensures size == |Accepted(ops, outs)| && (true !in lost ==> Join(chunks) == Accepted(ops, outs))
      ensures forall i :: 0 <= i < |ops| ==> LossAt(ops, outs, lost, i, blockSize)
      ensures Careful(ops, outs, blockSize) ==> Join(chunks) == Accepted(ops, outs)
      ensures AllPromptly(ops, outs, faults == 0, starved == 0 && size < MAX_BLOCKS * blockSize)
    {
      hide Inv, Owned, Sound, Chunked, FullUploads, Flatten, Settled, Partial, Join, Accepted, UpToDate, Answers;
      hide Theirs, FlushedSince, LossAt, Fits, Gain, Careful, AllPromptly;
      NothingTold(this);
      ghost var log := Log([], [], []);
      outs := [];
      for i := 0 to |ops|
        invariant Valid({}) && Settled(St(), blockSize, size) && !Stray() && Told(log)
        invariant log.ops == ops[..i] && log.outs == outs
      {
        assert ops[..i + 1] == ops[..i] + [ops[i]];
        var out;
        out, log := Next(ops[i], log);
        outs := outs + [out];
      }
      assert ops[..|ops|] == ops;
      lost := log.lost;
      SettledContent(St(), blockSize, size);
      if Careful(ops, outs, blockSize) { NothingLost(ops, outs, lost, blockSize); }
    }
  }

  /** No block in hand has been given up. */
  ghost predicate Unfailed(w: State) { forall r :: r in w.cooked && r in w.blocks ==> !w.blocks[r].failed }

  lemma AttemptFails(w: State, w': State, x: WorkItem, ok: bool)
    requires Attempted(w, w', x, ok)
    ensures ok && Unfailed(w) ==> Unfailed(w')
  {
  }

  lemma FrontUnfailed(w: State)
    requires w.cooked != [] && w.cooked[0] in w.blocks
    ensures Unfailed(w) ==> !w.blocks[w.cooked[0]].failed
  {
  }

  lemma RetiredUnfailed(w: State, w': State, open: set<Ref>, blockSize: nat, nextId: Id)
    requires Retired(w, w') && Inv(w, open, blockSize, nextId)
    ensures Unfailed(w) ==> Unfailed(w')
  {
  }

  lemma NoneUnfailed(w: State)
    ensures w.cooked == [] ==> Unfailed(w)
  {
  }

  lemma UpUnfailed(w: State, w': State, i: nat, id: Id)
    requires WentUp(w, w', i, id)
    ensures Unfailed(w) ==> Unfailed(w')
    ensures i <= |w'.cooking| && forall j :: 0 <= j < i ==> w'.cooking[j] == w.cooking[j]
  {
  }

  /** What waiting for uploads changes: fewer blocks in hand, some of them free and some put back. */
  ghost predicate Waited(w: State, w': State)
  {
    && w'.chunks == w.chunks && w'.listMap == w.listMap && w'.blob.committed == w.blob.committed
    && w'.blob.single == w.blob.single
    && |w'.cooking| >= |w.cooking| && |w'.cooked| <= |w.cooked|
    && (forall k :: k in w'.nodes ==> k in w.nodes && w'.nodes[k] == w.nodes[k])
    && (forall r :: r in w'.cooked ==>
          r in w.cooked && r in w.blocks && r in w'.blocks && w'.blocks[r].id == w.blocks[r].id)
    && (forall r :: r in w.cooking ==>
          r in w'.cooking && r in w.blocks && r in w'.blocks && w'.blocks[r] == w.blocks[r])
  }

  lemma FrontFacts(w: State, blockSize: nat, nextId: Id)
    requires Inv(w, {}, blockSize, nextId) && w.cooked != []
    ensures w.cooked[0] in w.blocks && 0 <= w.blocks[w.cooked[0]].id && w.cooked[0] !in w.cooking
    ensures Unrepeated(w.cooked) && forall r :: r in w.cooked[1..] <==> r in w.cooked && r != w.cooked[0]
    ensures w.blocks[w.cooked[0]].state == Ready ==> Finished(w)
  {
    FrontGone(w.cooked);
  }

  lemma WaitedStep(w: State, v: State, u: State, freed: bool, blockSize: nat, nextId: Id)
    requires Inv(w, {}, blockSize, nextId) && Progress(w, v) && v.cooked != [] && v.cooked[0] in v.blocks
    requires freed ==> Retired(v, u)
    requires !freed ==> u == Returned(v)
    ensures Waited(w, u) && |u.cooked| == |w.cooked| - 1
  {
    FrontGone(w.cooked);
  }

  lemma NewFile(w: State, blockSize: nat)
    requires w == State(w.blocks, map[], [], [], map[], PutBlob([]), {}, [])
    ensures Inv(w, {}, blockSize, 0) && Settled(w, blockSize, 0) && Chunked([], blockSize, 0)
  {
  }

  lemma WaitedNone(w: State, blockSize: nat, nextId: Id)
    requires Inv(w, {}, blockSize, nextId)
    ensures Waited(w, w)
  {
  }

  lemma WaitedMore(w: State, v: State, u: State)
    requires Waited(w, v) && Waited(v, u)
    ensures Waited(w, u)
  {
  }

  lemma LineupOwned(w: State, i: nat, id: Id, free: seq<Ref>, others: set<Ref>)
    requires i < |w.cooking| && w.cooking[i] in w.blocks && 0 <= w.blocks[w.cooking[i]].id && Unrepeated(w.cooking)
    requires Owned(w.blocks.Keys, free, w.cooked, w.cooking, others)
    ensures var w' := LinedUp(w, i, id); Owned(w'.blocks.Keys, free, w'.cooked, w'.cooking, others)
  {
    var w', r := LinedUp(w, i, id), w.cooking[i];
    assert w'.blocks.Keys == w.blocks.Keys;
    WithoutMember(w.cooking, i);
    hide Without;
    assert Elements(w'.cooked) == Elements(w.cooked) + {r} && Elements(w.cooking) == Elements(w'.cooking) + {r};
  }

  /** The blocks just opened are on the list and not yet dirty. */
  ghost predicate Opened(w: State, open: set<Ref>)
  {
    forall r :: r in open ==> r in w.cooking && r in w.blocks && !w.blocks[r].dirty
  }

  /** What staging changes: some blocks being filled are now in hand. */
  ghost predicate StagedMore(w: State, w': State, open: set<Ref>)
  {
    && w'.chunks == w.chunks && w'.nodes == w.nodes && w'.blob == w.blob && w'.blocks.Keys == w.blocks.Keys
    && |w'.cooked| + |w'.cooking| == |w.cooked| + |w.cooking|
    && (forall r :: r in w'.cooking ==> r in w.cooking && r in w.blocks && w'.blocks[r] == w.blocks[r])
    && (forall r :: r in w'.cooked ==> r in w.cooked || (r in w.cooking && r !in open))
    && (forall r :: r in open && r in w.cooking ==> r in w'.cooking)
    && (forall r :: r in w.blocks ==> w'.blocks[r].id == w.blocks[r].id)
  }

  lemma StagedNone(w: State, open: set<Ref>, blockSize: nat, nextId: Id)
    requires Inv(w, open, blockSize, nextId)
    ensures StagedMore(w, w, open)
  {
  }

  lemma FillingFacts(w: State, i: nat, open: set<Ref>, blockSize: nat, nextId: Id)
    requires Inv(w, open, blockSize, nextId) && i < |w.cooking|
    ensures w.cooking[i] in w.blocks && Unrepeated(w.cooking)
    ensures (w.cooking[i] !in open ==> w.blocks[w.cooking[i]].dirty)
  {
  }

  lemma StagedStep(w: State, v: State, u: State, i: nat, id: Id, open: set<Ref>)
    requires StagedMore(w, v, open) && WentUp(v, u, i, id) && v.cooking[i] !in open && Opened(v, open)
    requires Unrepeated(v.cooking)
    ensures StagedMore(w, u, open) && Opened(u, open) && |u.cooking| == |v.cooking| - 1
  {
    WithoutMember(v.cooking, i);
    assert u.blocks.Keys == v.blocks.Keys;
  }

  /** Blocks are in hand only while enough others are being filled. */
  ghost predicate Ample(w: State) { w.cooked != [] ==> |w.cooking| >= MIN_WRITE_BLOCK }

  lemma StagedBlob(w: State, w': State)
    requires StagedMore(w, w', {})
    ensures w'.blob == w.blob && w'.nodes.Keys <= w.nodes.Keys
  {
  }

  lemma WaitedBlob(w: State, w': State)
    requires Waited(w, w')
    ensures w'.blob.committed == w.blob.committed && w'.blob.single == w.blob.single && w'.nodes.Keys <= w.nodes.Keys
  {
  }

  ghost predicate Ascending(s: seq<nat>) { forall i, j :: 0 <= i < j < |s| ==> s[i] < s[j] }

  /** sort.Slice over the keys of the map. */
  method SortedKeys(m: map<nat, Id>) returns (keys: seq<nat>)
    ensures Ascending(keys) && forall k :: k in keys <==> k in m
  {
    keys := [];
    var rest := m.Keys;
    while rest != {}
      invariant Ascending(keys) && forall i, k :: 0 <= i < |keys| && k in rest ==> keys[i] < k
      invariant forall k :: k in m <==> k in keys || k in rest
      decreases |rest|
    {
      ghost var least := Least(rest);
      var k :| k in rest && forall j :: j in rest ==> k <= j;
      keys, rest := keys + [k], rest - {k};
    }
  }

  lemma {:induction false} Least(s: set<nat>) returns (k: nat)
    requires s != {}
    ensures k in s && forall j :: j in s ==> k <= j
  {
    k :| k in s;
    if s != {k} {
      assert s == (s - {k}) + {k};
      var l := Least(s - {k});
      k := if k < l then k else l;
    }
  }

  method IdsAt(m: map<nat, Id>, offsets: seq<nat>) returns (ids: seq<Id>)
    requires forall i :: 0 <= i < |offsets| ==> offsets[i] in m
    ensures |ids| == |offsets| && forall i :: 0 <= i < |ids| ==> ids[i] == m[offsets[i]]
  {
    ids := [];
    for i := 0 to |offsets|
      invariant |ids| == i && forall j :: 0 <= j < i ==> ids[j] == m[offsets[j]]
    {
      ids := ids + [m[offsets[i]]];
    }
  }

  ghost function IdSet(s: seq<Ref>, blocks: map<Ref, Block>): set<int>
    requires forall i :: 0 <= i < |s| ==> s[i] in blocks
  {
    set i | 0 <= i < |s| :: blocks[s[i]].id
  }

  lemma {:induction false} IdSetSize(s: seq<Ref>, blocks: map<Ref, Block>, n: nat)
    requires forall i :: 0 <= i < |s| ==> s[i] in blocks && 0 <= blocks[s[i]].id < n
    requires forall i, j :: 0 <= i < j < |s| ==> blocks[s[i]].id != blocks[s[j]].id
    ensures |IdSet(s, blocks)| == |s|
  {
    if s != [] {
      var m := |s| - 1;
      IdSetSize(s[..m], blocks, n);
      assert IdSet(s, blocks) == IdSet(s[..m], blocks) + {blocks[s[m]].id};
    }
  }

  lemma {:induction false} BelowSize(s: set<int>, n: nat)
    requires forall k :: k in s ==> 0 <= k < n
    ensures |s| <= n
  {
    if n == 0 {
      assert forall k :: k !in s;
    } else {
      BelowSize(s - {n - 1}, n - 1);
    }
  }

  /** Block ids are distinct, so a handle holds no more blocks than the file has. */
  lemma HeldBound(w: State, blockSize: nat, nextId: Id)
    requires Inv(w, {}, blockSize, nextId)
    ensures |w.cooked| <= |w.chunks| && |w.cooking| <= |w.chunks|
  {
    forall r | r in w.cooked ensures w.blocks[r].id < |w.chunks| { assert InHand(w, r, blockSize); }
    IdSetSize(w.cooked, w.blocks, |w.chunks|);
    BelowSize(IdSet(w.cooked, w.blocks), |w.chunks|);
    IdSetSize(w.cooking, w.blocks, |w.chunks|);
    BelowSize(IdSet(w.cooking, w.blocks), |w.chunks|);
  }

  lemma {:induction false} AscendingRange(s: seq<nat>, n: nat)
    requires Ascending(s) && forall k :: k in s <==> 0 <= k < n
    ensures |s| == n && forall i :: 0 <= i < n ==> s[i] == i
  {
    if s == [] {
      assert 0 in s <==> 0 < n;
    } else {
      var m := |s| - 1;
      assert s[m] in s;
      assert n - 1 in s;
      assert s[m] == n - 1;
      forall k | 0 <= k < n - 1 ensures k in s[..m] { assert k in s; }
      AscendingRange(s[..m], n - 1);
    }
  }

  lemma {:induction false} FlattenJoin(bs: seq<StoredBlock>, chunks: seq<Bytes>)
    requires |bs| == |chunks| && forall i :: 0 <= i < |bs| ==> bs[i].data == chunks[i]
    ensures Flatten(bs) == Join(chunks)
  {
    if bs != [] {
      var m := |bs| - 1;
      FlattenJoin(bs[..m], chunks[..m]);
      FlattenSplit(bs, m);
      assert bs[..m + 1] == bs;
    }
  }

  /** With no block held, every chunk is staged under its id and the ids are all there is to list. */
  lemma AllStaged(w: State, offsets: seq<nat>, blockSize: nat, nextId: Id)
    requires Inv(w, {}, blockSize, nextId) && w.cooked == [] && w.cooking == []
    requires Ascending(offsets) && (forall k :: k in offsets <==> k in w.listMap)
    ensures w.queue == {} && |offsets| == |w.chunks|
    ensures forall i :: 0 <= i < |offsets| ==> offsets[i] == i && StagedAs(w, i)
  {
    assert forall k :: k !in w.nodes;
    assert forall x :: x in w.queue ==> x.block in QueueBlocks(w.queue);
    forall k | 0 <= k < |w.chunks| ensures k in w.listMap { assert StagedAs(w, k); }
    AscendingRange(offsets, |w.chunks|);
  }

  lemma CommitKeeps(w: State, offsets: seq<nat>, ids: seq<Id>, blockSize: nat, nextId: Id)
    requires Inv(w, {}, blockSize, nextId) && w.cooked == [] && w.cooking == []
    requires Ascending(offsets) && (forall k :: k in offsets <==> k in w.listMap)
    requires |ids| == |offsets|
    requires forall i :: 0 <= i < |ids| ==> offsets[i] in w.listMap && ids[i] == w.listMap[offsets[i]]
    ensures w.queue == {} && forall i :: 0 <= i < |ids| ==> Known(w.blob, ids[i])
    ensures var blob' := PutBlockList(w.blob, ids);
      Content(blob') == Join(w.chunks) && Inv(w.(blob := blob'), {}, blockSize, nextId)
  {
    AllStaged(w, offsets, blockSize, nextId);
    var w' := w.(blob := PutBlockList(w.blob, ids));
    FlattenJoin(w'.blob.committed, w.chunks);
    CommittedStaged(w, w', ids, nextId);
    NoneHeld(w, w', blockSize);
    hide Mapped, Filling, Uploading, QueueOk, IdsOk, Stored, Flatten, Join;
  }

  lemma NoneHeld(w: State, w': State, blockSize: nat)
    requires Mapped(w) && w.cooked == [] && w.cooking == [] && w.queue == {} && w' == w.(blob := w'.blob)
    ensures Mapped(w') && Filling(w', {}, blockSize) && Uploading(w', blockSize) && QueueOk(w')
  {
  }

  lemma CommittedStaged(w: State, w': State, ids: seq<Id>, nextId: Id)
    requires IdsOk(w, nextId) && |ids| == |w.chunks|
    requires forall k: nat :: k < |w.chunks| ==> StagedAs(w, k) && ids[k] == w.listMap[k]
    requires forall i :: 0 <= i < |ids| ==> Known(w.blob, ids[i])
    requires w' == w.(blob := PutBlockList(w.blob, ids))
    ensures IdsOk(w', nextId) && Stored(w')
  {
    forall k: nat | k < |w.chunks| ensures StagedAs(w', k) {
      assert StagedAs(w, k);
      FindAt(w'.blob.committed, k);
    }
  }

  /** Blocks in hand between operations are full. */
  ghost predicate FullUploads(w: State, blockSize: nat)
  {
    forall r :: r in w.cooked ==>
      r in w.blocks && 0 <= w.blocks[r].id < |w.chunks| && |w.chunks[w.blocks[r].id]| == blockSize
  }

  lemma WaitedFull(w: State, w': State, blockSize: nat)
    requires Waited(w, w') && FullUploads(w, blockSize) && Ample(w)
    ensures FullUploads(w', blockSize) && Ample(w') && |w'.cooking| >= |w.cooking| && w'.chunks == w.chunks
    ensures forall k :: k in w'.nodes ==> k in w.nodes
    ensures w'.blob.committed == w.blob.committed && w'.blob.single == w.blob.single
  {
  }

  /** Block r was just taken from the pool for block `index` of the file. */
  ghost predicate OpenedAt(blocks: map<Ref, Block>, nodes: map<nat, Ref>, r: Ref, index: nat, blockSize: nat)
  {
    && r in blocks && index in nodes && nodes[index] == r && |blocks[r].data| == blockSize
    && blocks[r] == Block(index, index * blockSize, 0, blocks[r].data, Pending, false, false, false)
  }

  lemma OpenKeeps(w: State, w': State, free: seq<Ref>, free': seq<Ref>, taken: map<Ref, Block>, r: Ref, index: nat,
                  nextRef: Ref, maxBlocks: nat, blockSize: nat, nextId: Id, others: map<Ref, Block>)
    requires Taken(free, free', w.blocks, taken, r) && r in taken && index !in w.nodes
    requires w' == w.(blocks := taken[r := taken[r].(id := index, offset := index * blockSize)],
                      nodes := w.nodes[index := r], cooking := w'.cooking)
    requires w'.cooking == [r] + w.cooking || w'.cooking == w.cooking + [r]
    requires Inv(w, {}, blockSize, nextId) && Owned(w.blocks.Keys, free, w.cooked, w.cooking, others.Keys)
    requires Theirs(w.blocks, others)
    requires Sound(free', taken, nextRef, maxBlocks, blockSize)
    ensures Inv(w', {r}, blockSize, nextId) && Owned(w'.blocks.Keys, free', w'.cooked, w'.cooking, others.Keys)
    ensures Theirs(w'.blocks, others)
    ensures Sound(free', w'.blocks, nextRef, maxBlocks, blockSize) && OpenedAt(w'.blocks, w'.nodes, r, index, blockSize)
    ensures FullUploads(w, blockSize) ==> FullUploads(w', blockSize)
  {
    hide Mapped, Filling, Uploading, QueueOk, IdsOk, Stored, Unrepeated, FullUploads, WithOpen, Owned, Sound, Theirs;
    hide Taken;
    TakenOwned(w.blocks, taken, free, free', w.cooked, w.cooking, others.Keys, r);
    SoundUpdated(free', taken, r, taken[r].(id := index, offset := index * blockSize), nextRef, maxBlocks, blockSize);
    TakenSize(free', taken, r, nextRef, maxBlocks, blockSize);
    TakenFacts(free, free', w.blocks, taken, r);
    TakenTheirs(w.blocks, taken, others, r, taken[r].(id := index, offset := index * blockSize));
    OpenWith(w, w', taken, r, index, blockSize);
    OpenLists(w, w', r, index, blockSize);
    OpenQueue(w, w', r, index, blockSize, nextId);
    OpenOwned(w, w', r, index, free', others.Keys);
  }

  lemma OpenWith(w: State, w': State, taken: map<Ref, Block>, r: Ref, index: nat, blockSize: nat)
    requires r in taken && !taken[r].synced && index !in w.nodes && r !in w.cooked && r !in w.cooking
    requires w' == w.(blocks := taken[r := taken[r].(id := index, offset := index * blockSize)],
                      nodes := w.nodes[index := r], cooking := w'.cooking)
    requires w'.cooking == [r] + w.cooking || w'.cooking == w.cooking + [r]
    requires forall q :: (q in w.cooked || q in w.cooking) && q in w.blocks ==> q in taken && taken[q] == w.blocks[q]
    ensures WithOpen(w, w', r, index)
  {
    assert forall q :: q in w'.cooking <==> q in w.cooking || q == r;
  }

  lemma OpenOwned(w: State, w': State, r: Ref, index: nat, free: seq<Ref>, others: set<Ref>)
    requires WithOpen(w, w', r, index) && r !in free && r !in others
    requires w'.blocks.Keys == Elements(free) + Elements(w.cooked) + Elements(w.cooking) + others + {r}
    requires forall q :: q in free ==> q !in w.cooked && q !in w.cooking && q !in others
    requires forall q :: q in others ==> q !in w.cooked && q !in w.cooking
    ensures Owned(w'.blocks.Keys, free, w'.cooked, w'.cooking, others)
  {
    assert Elements(w'.cooking) == Elements(w.cooking) + {r};
  }

  /** w' is w with block r on the list as block `index`. */
  ghost predicate WithOpen(w: State, w': State, r: Ref, index: nat)
  {
    && w' == w.(blocks := w'.blocks, nodes := w.nodes[index := r], cooking := w'.cooking)
    && index !in w.nodes && r !in w.cooked && r !in w.cooking && r in w'.blocks && w'.blocks[r].id == index
    && !w'.blocks[r].synced
    && (w'.cooking == [r] + w.cooking || w'.cooking == w.cooking + [r])
    && (forall q :: q in w'.cooking <==> q in w.cooking || q == r)
    && (forall q :: (q in w.cooked || q in w.cooking) && q in w.blocks ==>
          q in w'.blocks && w'.blocks[q] == w.blocks[q])
  }

  lemma OpenLists(w: State, w': State, r: Ref, index: nat, blockSize: nat)
    requires Mapped(w) && Filling(w, {}, blockSize) && WithOpen(w, w', r, index)
    ensures Mapped(w') && Filling(w', {r}, blockSize)
    ensures FullUploads(w, blockSize) ==> FullUploads(w', blockSize)
  {
  }

  lemma OpenQueue(w: State, w': State, r: Ref, index: nat, blockSize: nat, nextId: Id)
    requires Uploading(w, blockSize) && QueueOk(w) && IdsOk(w, nextId) && Stored(w) && WithOpen(w, w', r, index)
    ensures Uploading(w', blockSize) && QueueOk(w') && IdsOk(w', nextId) && Stored(w')
  {
    forall q | q in w.cooked ensures InHand(w', q, blockSize) { assert InHand(w, q, blockSize); }
    assert forall x :: x in w.queue ==> x.block in QueueBlocks(w.queue);
    assert forall k: nat :: k < |w.chunks| && StagedAs(w, k) ==> StagedAs(w', k);
  }

  /** What a download leaves in a block: the bytes of the blob from the block's offset to the size of the
      handle, or anything when it fails. A blob that is shorter than that makes it fail. */
  ghost predicate Delivered(b: Block, b': Block, content: Bytes, blockSize: nat, size: nat, fetched: bool)
  {
    && |b'.data| == blockSize
    && b' == b.(data := b'.data, endIndex := b'.endIndex, failed := b'.failed, state := Closed)
    && (!fetched ==> b'.endIndex == b.offset)
    && (fetched ==> b.offset < size <= |content| && var n := Min(blockSize, size - b.offset);
        b'.endIndex == b.offset + n && b'.data[..n] == content[b.offset..b.offset + n])
  }

  lemma DeliveredSize(b: Block, b': Block, content: Bytes, blockSize: nat, size: nat, fetched: bool)
    requires Delivered(b, b', content, blockSize, size, fetched)
    ensures |b'.data| == blockSize && b'.id == b.id && b'.synced == b.synced
  {
  }

  /** Between operations: the blob is no longer than the file, and when it is as long it is the file. */
  ghost predicate Settled(w: State, blockSize: nat, size: nat)
  {
    && Ample(w) && FullUploads(w, blockSize) && |Content(w.blob)| <= size
    && (|Content(w.blob)| == size ==> Content(w.blob) == Join(w.chunks))
  }

  lemma ProgressSettled(w: State, w': State, blockSize: nat, size: nat)
    requires Progress(w, w') && Settled(w, blockSize, size)
    ensures Settled(w', blockSize, size) && Content(w'.blob) == Content(w.blob)
  {
  }

  /** The block the next byte goes to: a new one, the last one, or the last one downloaded again. */
  ghost predicate Target(w: State, r: Ref, blockSize: nat, size: nat, refetched: bool, fetched: bool)
  {
    && r in w.cooking && r in w.blocks && var b := w.blocks[r];
    && 0 <= b.id && b.offset == b.id * blockSize <= size && |b.data| == blockSize && b.state == Closed && !b.synced
    && (if refetched
        then && b.id == |w.chunks| - 1 && b.endIndex <= size < b.offset + blockSize
             && Delivered(b, b, Content(w.blob), blockSize, size, fetched)
        else if b.id == |w.chunks| then b.endIndex == 0 && size == b.offset
        else && b.id == |w.chunks| - 1 && b.endIndex == size && size < b.offset + blockSize
             && Carries(b, w.chunks, blockSize))
  }

  lemma OpenNotUploading(w: State, r: Ref, open: set<Ref>, blockSize: nat, nextId: Id)
    requires Inv(w, open, blockSize, nextId) && r in w.cooking
    ensures r !in w.cooked && r in w.blocks
  {
  }

  lemma ProgressOpen(w: State, w': State, r: Ref, blockSize: nat)
    requires Progress(w, w') && r !in w.cooked && r in w.blocks
    ensures r in w'.blocks && w'.blocks[r] == w.blocks[r] && w'.cooked == w.cooked && w'.cooking == w.cooking
    ensures w'.blob.committed == w.blob.committed && w'.blob.single == w.blob.single
    ensures FullUploads(w, blockSize) ==> FullUploads(w', blockSize)
  {
  }

  /** Changing an open block, but not what it is the block of, keeps everything else. */
  lemma ReopenKeeps(w: State, w': State, r: Ref, blockSize: nat, nextId: Id)
    requires Inv(w, {r}, blockSize, nextId) && r in w.cooking && r in w.blocks && r in w'.blocks
    requires w' == w.(blocks := w.blocks[r := w'.blocks[r]]) && w'.blocks[r].id == w.blocks[r].id
    requires !w'.blocks[r].synced
    ensures Inv(w', {r}, blockSize, nextId) && (FullUploads(w, blockSize) ==> FullUploads(w', blockSize))
  {
    ReopenLists(w, w', r, blockSize);
    IdsKept(w, w', nextId);
    ReopenQueue(w, w', r, blockSize);
    hide Mapped, Filling, Uploading, QueueOk, IdsOk, InHand, Carries, Unrepeated;
    assert forall k: nat :: k < |w.chunks| && StagedAs(w, k) ==> StagedAs(w', k);
  }

  lemma ReopenQueue(w: State, w': State, r: Ref, blockSize: nat)
    requires Uploading(w, blockSize) && QueueOk(w) && r !in w.cooked && r in w'.blocks
    requires w' == w.(blocks := w.blocks[r := w'.blocks[r]])
    ensures Uploading(w', blockSize) && QueueOk(w')
  {
    forall q | q in w.cooked ensures InHand(w', q, blockSize) { assert InHand(w, q, blockSize); }
    assert forall x :: x in w.queue ==> x.block in QueueBlocks(w.queue);
  }

  lemma ReopenLists(w: State, w': State, r: Ref, blockSize: nat)
    requires Mapped(w) && Filling(w, {r}, blockSize) && r in w.cooking && r in w.blocks && r in w'.blocks
    requires w' == w.(blocks := w.blocks[r := w'.blocks[r]]) && w'.blocks[r].id == w.blocks[r].id
    requires !w'.blocks[r].synced
    ensures Mapped(w') && Filling(w', {r}, blockSize) && r !in w.cooked
  {
  }

  lemma FoundTarget(w: State, r: Ref, index: nat, blockSize: nat, nextId: Id, size: nat)
    requires Inv(w, {}, blockSize, nextId) && FullUploads(w, blockSize) && Chunked(w.chunks, blockSize, size)
    requires blockSize > 0
    requires index == size / blockSize && index in w.nodes && w.nodes[index] == r
    requires forall q :: q in w.blocks ==> |w.blocks[q].data| == blockSize
    ensures Target(w, r, blockSize, size, false, false) && Inv(w, {r}, blockSize, nextId)
  {
    NextIndex(w.chunks, blockSize, size);
    assert index < |w.chunks| && r in w.cooking;
  }

  lemma OpenedFacts(w: State, r: Ref, index: nat, blockSize: nat)
    requires OpenedAt(w.blocks, w.nodes, r, index, blockSize)
    ensures r in w.blocks && |w.blocks[r].data| == blockSize && !w.blocks[r].synced
  {
  }

  lemma OpenTarget(v: State, w: State, r: Ref, index: nat, blockSize: nat, size: nat, refetched: bool, fetched: bool)
    requires Chunked(w.chunks, blockSize, size) && blockSize > 0 && index == size / blockSize
    requires refetched == (index * blockSize < size)
    requires r in w.cooking && r in w.blocks && OpenedAt(v.blocks, v.nodes, r, index, blockSize)
    requires if refetched then Delivered(v.blocks[r], w.blocks[r], Content(w.blob), blockSize, size, fetched)
             else w.blocks[r] == v.blocks[r].(state := Closed)
    ensures Target(w, r, blockSize, size, refetched, fetched) && Opened(w, {r})
    ensures refetched == Partial(w.chunks, blockSize)
    ensures w.blocks[r].id == index && forall k :: 0 <= k < |w.chunks| && k != index ==> |w.chunks[k]| == blockSize
  {
    NextIndex(w.chunks, blockSize, size);
  }

  lemma OneStaged(w: State, w': State, r: Ref, nextId: Id, blockSize: nat)
    requires StagedMore(w, w', {r}) && Inv(w', {r}, blockSize, nextId)
    requires |w'.cooking| + 1 == |w.cooking| || forall q :: q in w'.cooking ==> q in {r}
    ensures |w'.cooking| <= MIN_WRITE_BLOCK || w'.cooked != []
  {
    if |w'.cooking| > 1 { assert w'.cooking[0] in w'.cooking && w'.cooking[1] in w'.cooking; }
  }

  lemma StagedTarget(w: State, w': State, r: Ref, blockSize: nat, nextId: Id, size: nat, refetched: bool, fetched: bool)
    requires Inv(w, {r}, blockSize, nextId) && StagedMore(w, w', {r})
    requires Target(w, r, blockSize, size, refetched, fetched)
    requires FullUploads(w, blockSize)
    requires forall k :: 0 <= k < |w.chunks| && k != w.blocks[r].id ==> |w.chunks[k]| == blockSize
    ensures Target(w', r, blockSize, size, refetched, fetched) && FullUploads(w', blockSize) && w'.blob == w.blob
  {
  }

  /** The file an append adds to: its last block may have been downloaded again. */
  function ReBase(chunks: seq<Bytes>, b: Block, at: nat, refetched: bool): Bytes
    requires at <= |b.data|
  {
    if refetched && chunks != [] then Join(chunks[..|chunks| - 1]) + b.data[..at] else Join(chunks)
  }

  ghost predicate Partial(chunks: seq<Bytes>, blockSize: nat) { chunks != [] && |chunks[|chunks| - 1]| < blockSize }

  /** An append adds to the file as it was, unless its last block was lost: its bytes can then be anything. */
  ghost predicate Rebased(chunks: seq<Bytes>, base: Bytes, lost: bool)
  {
    if !lost then base == Join(chunks)
    else chunks != [] && |base| == |Join(chunks)| && Join(chunks[..|chunks| - 1]) <= base
  }

  lemma TargetRoom(w: State, r: Ref, blockSize: nat, size: nat, refetched: bool, fetched: bool)
    requires Target(w, r, blockSize, size, refetched, fetched)
    ensures r in w.blocks && r in w.cooking
    ensures var b := w.blocks[r];
      0 <= b.id <= |w.chunks| && b.offset <= size && b.endIndex <= size && |b.data| == blockSize
    ensures blockSize > 0 ==> size - w.blocks[r].offset < blockSize
  {
  }

  /** What an append does to the chunks. */
  lemma ChunkGrows(w: State, r: Ref, d: Bytes, blockSize: nat, size: nat, refetched: bool, fetched: bool)
    requires Target(w, r, blockSize, size, refetched, fetched) && Chunked(w.chunks, blockSize, size)
    requires |w.chunks| <= MAX_BLOCKS
    requires blockSize > 0 && 0 < |d| <= blockSize - (size - w.blocks[r].offset) && size / blockSize < MAX_BLOCKS
    requires refetched && fetched ==> Content(w.blob) == Join(w.chunks)
    ensures var b := w.blocks[r]; var at := size - b.offset; var chunks' := PutChunk(w.chunks, b.id, b.data[..at] + d);
      && Chunked(chunks', blockSize, size + |d|) && |chunks'| <= MAX_BLOCKS && (at + |d| == blockSize ==>
          !Partial(chunks', blockSize))
      && Join(chunks') == ReBase(w.chunks, b, at, refetched) + d
      && Rebased(w.chunks, ReBase(w.chunks, b, at, refetched), refetched && !fetched)
  {
    var b, n := w.blocks[r], |w.chunks|;
    var at := size - b.offset;
    NextIndex(w.chunks, blockSize, size);
    NextBlock(w, r, blockSize, size, refetched, fetched);
    hide Chunked, Join;
    if b.id == n {
      PutNext(w.chunks, d, blockSize, size);
      assert b.data[..at] + d == d;
    } else {
      LastGrows(w, r, d, blockSize, size, refetched, fetched);
    }
  }

  lemma NextBlock(w: State, r: Ref, blockSize: nat, size: nat, refetched: bool, fetched: bool)
    requires Target(w, r, blockSize, size, refetched, fetched) && blockSize > 0 && Chunked(w.chunks, blockSize, size)
    ensures w.blocks[r].id == size / blockSize
    ensures refetched ==> Partial(w.chunks, blockSize) && size / blockSize == |w.chunks| - 1
  {
    DivIs(size, blockSize, w.blocks[r].id);
  }

  lemma LastGrows(w: State, r: Ref, d: Bytes, blockSize: nat, size: nat, refetched: bool, fetched: bool)
    requires Target(w, r, blockSize, size, refetched, fetched) && Chunked(w.chunks, blockSize, size)
    requires w.blocks[r].id == |w.chunks| - 1
    requires 0 < |d| <= blockSize - (size - w.blocks[r].offset)
    requires refetched && fetched ==> Content(w.blob) == Join(w.chunks)
    ensures var b := w.blocks[r]; var at := size - b.offset; var chunks' := w.chunks[b.id := b.data[..at] + d];
      && Chunked(chunks', blockSize, size + |d|) && Join(chunks') == ReBase(w.chunks, b, at, refetched) + d
      && Rebased(w.chunks, ReBase(w.chunks, b, at, refetched), refetched && !fetched)
  {
    var b, n := w.blocks[r], |w.chunks|;
    var at := size - b.offset;
    PutLast(w.chunks, b.data[..at] + d, blockSize, size, size + |d|);
    JoinLength(w.chunks[..n - 1], blockSize);
    if refetched {
      RefetchedBase(w.chunks, b, at, Content(w.blob), blockSize, size, fetched);
    } else {
      assert b.data[..at] == w.chunks[n - 1];
    }
  }

  lemma PutNext(chunks: seq<Bytes>, d: Bytes, blockSize: nat, size: nat)
    requires Chunked(chunks, blockSize, size) && size == |chunks| * blockSize && 0 < |d| <= blockSize
    ensures Chunked(chunks + [d], blockSize, size + |d|) && Join(chunks + [d]) == Join(chunks) + d
  {
    var chunks' := chunks + [d];
    assert chunks'[..|chunks'| - 1] == chunks;
    assert chunks != [] ==> |chunks| * blockSize == (|chunks| - 1) * blockSize + blockSize;
  }

  lemma PutLast(chunks: seq<Bytes>, c: Bytes, blockSize: nat, size: nat, size': nat)
    requires Chunked(chunks, blockSize, size) && chunks != [] && 0 < |c| <= blockSize
    requires size' == (|chunks| - 1) * blockSize + |c|
    ensures var k := |chunks| - 1;
      Chunked(chunks[k := c], blockSize, size') && Join(chunks[k := c]) == Join(chunks[..k]) + c
  {
    var k := |chunks| - 1;
    assert chunks[k := c][..k] == chunks[..k];
  }

  lemma {:induction false} JoinLength(chunks: seq<Bytes>, blockSize: nat)
    requires forall k :: 0 <= k < |chunks| ==> |chunks[k]| == blockSize
    ensures |Join(chunks)| == |chunks| * blockSize
  {
    if chunks != [] {
      JoinLength(chunks[..|chunks| - 1], blockSize);
      assert |chunks| * blockSize == (|chunks| - 1) * blockSize + blockSize;
    }
  }

  lemma RefetchedBase(chunks: seq<Bytes>, b: Block, at: nat, content: Bytes, blockSize: nat, size: nat, fetched: bool)
    requires chunks != [] && at == |chunks[|chunks| - 1]| <= blockSize == |b.data|
    requires |Join(chunks[..|chunks| - 1])| == b.offset
    requires Delivered(b, b, content, blockSize, size, fetched) && size == b.offset + at
    requires (fetched ==> content == Join(chunks))
    ensures Rebased(chunks, ReBase(chunks, b, at, true), !fetched)
  {
    if fetched {
      assert Join(chunks)[b.offset..] == chunks[|chunks| - 1];
      assert b.data[..at] == content[b.offset..b.offset + at] == chunks[|chunks| - 1];
    }
  }

  /** The handle after an append. */
  lemma WriteKeeps(w: State, w': State, r: Ref, d: Bytes, free: seq<Ref>, nextRef: Ref, maxBlocks: nat, blockSize: nat,
                   nextId: Id, size: nat, refetched: bool, fetched: bool)
    requires Inv(w, {r}, blockSize, nextId) && Sound(free, w.blocks, nextRef, maxBlocks, blockSize)
    requires FullUploads(w, blockSize)
    requires Target(w, r, blockSize, size, refetched, fetched) && 0 < |d| <= blockSize - (size - w.blocks[r].offset)
    requires var b := w.blocks[r]; var at := size - b.offset;
      && r in w'.blocks
      && w' == w.(blocks := w.blocks[r := w'.blocks[r]], chunks := PutChunk(w.chunks, b.id, b.data[..at] + d))
      && w'.blocks[r] == b.(data := Overlay(b.data, at, d), dirty := true, endIndex := size + |d|)
    ensures Inv(w', {}, blockSize, nextId) && Sound(free, w'.blocks, nextRef, maxBlocks, blockSize)
    ensures FullUploads(w', blockSize)
    ensures w'.blocks.Keys == w.blocks.Keys
  {
    hide Inv, Sound, FullUploads;
    var b := w.blocks[r];
    var at := size - b.offset;
    assert w'.blocks.Keys == w.blocks.Keys;
    assert Overlay(b.data, at, d)[..at + |d|] == b.data[..at] + d;
    FillKeeps(w, w', r, b.data[..at] + d, {r}, blockSize, nextId);
    assert {r} - {r} == {};
    OthersFull(w, w', r, b.data[..at] + d, blockSize, nextId);
    StillSound(free, w.blocks, w'.blocks, nextRef, maxBlocks, blockSize, r);
  }

  /** Filling the block being filled leaves the blocks in hand full. */
  lemma OthersFull(w: State, w': State, r: Ref, chunk: Bytes, blockSize: nat, nextId: Id)
    requires Inv(w, {r}, blockSize, nextId) && FullUploads(w, blockSize) && Filled(w, w', r, chunk, blockSize)
    ensures FullUploads(w', blockSize)
  {
    hide Filling, Stored, QueueOk, IdsOk;
    forall q | q in w.cooked ensures q in w.blocks && w.blocks[q].id != w.blocks[r].id {
      assert InHand(w, q, blockSize);
    }
  }

  lemma StillSound(free: seq<Ref>, blocks: map<Ref, Block>, blocks': map<Ref, Block>, nextRef: Ref, maxBlocks: nat,
                   blockSize: nat, r: Ref)
    requires Sound(free, blocks, nextRef, maxBlocks, blockSize) && r in blocks && r in blocks'
    requires |blocks'[r].data| == blockSize
    requires blocks' == blocks[r := blocks'[r]]
    ensures Sound(free, blocks', nextRef, maxBlocks, blockSize)
  {
    assert blocks'.Keys == blocks.Keys;
  }

  /** In `Write`, serves says whether the storage serves downloads at that time. */
  datatype Op = Write(data: Bytes, serves: bool) | Flush | Close

  /** What an operation reports: how much was written, or whether the flush or close succeeded. */
  datatype Outcome = Wrote(n: nat) | Flushed(ok: bool)

  /** Operations with what they reported, and whether each lost the bytes of the last block. */
  datatype Log = Log(ops: seq<Op>, outs: seq<Outcome>, lost: seq<bool>)

  predicate Answers(ops: seq<Op>, outs: seq<Outcome>)
  {
    |outs| == |ops| && forall i :: 0 <= i < |ops| ==> Fits(ops[i], outs[i])
  }

  predicate Fits(op: Op, out: Outcome)
  {
    match op case Write(data, _) => out.Wrote? && out.n <= |data| case Flush => out.Flushed? case Close => out.Flushed?
  }

  function Gain(op: Op, out: Outcome): Bytes
    requires Fits(op, out)
  {
    match op case Write(data, _) => data[..out.n] case Flush => [] case Close => []
  }

  /** The bytes the writes took. */
  function Accepted(ops: seq<Op>, outs: seq<Outcome>): Bytes
    requires Answers(ops, outs)
  {
    if ops == [] then []
    else
      var m := |ops| - 1;
      Accepted(ops[..m], outs[..m]) + Gain(ops[m], outs[m])
  }

  /** Nothing was written since the last successful flush. */
  predicate UpToDate(outs: seq<Outcome>)
  {
    outs == [] ||
    var m := |outs| - 1;
    match outs[m]
    case Wrote(n) => n == 0 && UpToDate(outs[..m])
    case Flushed(ok) => ok || UpToDate(outs[..m])
  }

  /** There was a flush, or a close, since the last bytes were written. */
  predicate FlushedSince(outs: seq<Outcome>)
  {
    outs != [] &&
    var m := |outs| - 1;
    match outs[m]
    case Wrote(n) => n == 0 && FlushedSince(outs[..m])
    case Flushed(_) => true
  }

  /** Operation i writes bytes into a last block that has room. */
  predicate IntoPartial(ops: seq<Op>, outs: seq<Outcome>, i: nat, blockSize: nat)
    requires Answers(ops, outs) && i < |ops| && blockSize > 0
  {
    ops[i].Write? && outs[i].n > 0 && |Accepted(ops[..i], outs[..i])| % blockSize != 0
  }

  /** When operation i loses the last block: never without a flush since the last write; after a successful
      one exactly when the storage does not serve the download. */
  ghost predicate LossAt(ops: seq<Op>, outs: seq<Outcome>, lost: seq<bool>, i: nat, blockSize: nat)
    requires Answers(ops, outs) && i < |ops| == |lost| && blockSize > 0
  {
    && (lost[i] ==>
          IntoPartial(ops, outs, i, blockSize) && FlushedSince(outs[..i]) && !(ops[i].serves && UpToDate(outs[..i])))
    && (IntoPartial(ops, outs, i, blockSize) && UpToDate(outs[..i]) ==> (lost[i] <==> !ops[i].serves))
  }

  /** No write goes into a partly filled block after a flush unless that flush, or one since, succeeded and the
      storage serves the download. */
  predicate Careful(ops: seq<Op>, outs: seq<Outcome>, blockSize: nat)
    requires Answers(ops, outs) && blockSize > 0
  {
    forall i :: 0 <= i < |ops| && IntoPartial(ops, outs, i, blockSize) && FlushedSince(outs[..i]) ==>
      ops[i].serves && UpToDate(outs[..i])
  }

  /** A flush or close does not fail unless a storage call did, and a write takes all unless a block could not be had or
      the file has all the blocks a blob may have. */
  predicate Promptly(op: Op, out: Outcome, faultless: bool, roomy: bool)
    requires Fits(op, out)
  {
    match op
    case Write(data, _) => roomy ==> out.n == |data|
    case Flush => faultless ==> out.ok
    case Close => faultless ==> out.ok
  }

  predicate AllPromptly(ops: seq<Op>, outs: seq<Outcome>, faultless: bool, roomy: bool)
    requires Answers(ops, outs)
  {
    forall i :: 0 <= i < |ops| ==> Promptly(ops[i], outs[i], faultless, roomy)
  }

  lemma PromptStill(ops: seq<Op>, outs: seq<Outcome>, f: bool, f': bool, r: bool)
    requires Answers(ops, outs) && AllPromptly(ops, outs, f, r) && (f' ==> f)
    ensures AllPromptly(ops, outs, f', r)
  {
  }

  lemma PromptMore(ops: seq<Op>, outs: seq<Outcome>, op: Op, out: Outcome, f: bool, f': bool, r: bool, r': bool,
                   now: bool, room: bool)
    requires Answers(ops, outs) && AllPromptly(ops, outs, f, r) && Fits(op, out) && Promptly(op, out, now, room)
    requires (f' ==> f && now) && (r' ==> r && room)
    ensures Answers(ops + [op], outs + [out]) && AllPromptly(ops + [op], outs + [out], f', r')
  {
  }

  lemma GainSize(op: Op, out: Outcome)
    requires Fits(op, out)
    ensures |Gain(op, out)| == (if op.Write? then out.n else 0) && (op.Write? <==> out.Wrote?)
  {
  }

  lemma NothingLost(ops: seq<Op>, outs: seq<Outcome>, lost: seq<bool>, blockSize: nat)
    requires Answers(ops, outs) && |lost| == |ops| && blockSize > 0 && Careful(ops, outs, blockSize)
    requires forall i :: 0 <= i < |ops| ==> LossAt(ops, outs, lost, i, blockSize)
    ensures true !in lost
  {
    forall i | 0 <= i < |lost| ensures !lost[i] { assert LossAt(ops, outs, lost, i, blockSize); }
  }

  lemma OneMore(ops: seq<Op>, outs: seq<Outcome>, lost: seq<bool>, op: Op, out: Outcome, l: bool, blockSize: nat)
    requires Answers(ops, outs) && |lost| == |ops| && blockSize > 0 && Fits(op, out)
    ensures Answers(ops + [op], outs + [out])
    ensures Accepted(ops + [op], outs + [out]) == Accepted(ops, outs) + Gain(op, out)
    ensures UpToDate(outs + [out]) <==> if out.Wrote? then out.n == 0 && UpToDate(outs) else out.ok || UpToDate(outs)
    ensures FlushedSince(outs + [out]) <==> if out.Wrote? then out.n == 0 && FlushedSince(outs) else true
    ensures true in lost + [l] <==> true in lost || l
    ensures forall i :: 0 <= i < |ops| && LossAt(ops, outs, lost, i, blockSize) ==>
      LossAt(ops + [op], outs + [out], lost + [l], i, blockSize)
    ensures LossAt(ops + [op], outs + [out], lost + [l], |ops|, blockSize) <==>
      var into := op.Write? && out.n > 0 && |Accepted(ops, outs)| % blockSize != 0;
      && (l ==> into && FlushedSince(outs) && !(op.serves && UpToDate(outs)))
      && (into && UpToDate(outs) ==> (l <==> !op.serves))
  {
    var ops', outs', lost' := ops + [op], outs + [out], lost + [l];
    assert ops'[..|ops|] == ops && outs'[..|outs|] == outs;
    assert lost'[|lost|] == l;
    forall i | 0 <= i < |ops| ensures ops'[..i] == ops[..i] && outs'[..i] == outs[..i] && lost'[i] == lost[i] {}
  }

  /** A new file. */
  lemma NothingTold(h: Writer)
    requires h.Valid({}) && Settled(h.St(), h.blockSize, h.size) && h.chunks == [] && h.nodes == map[]
    ensures h.Told(Log([], [], []))
  {
    hide Inv, Owned, Sound, Theirs, Flatten;
    NothingYet(h.St(), h.blockSize, h.size);
  }

  lemma NothingYet(w: State, blockSize: nat, size: nat)
    requires Settled(w, blockSize, size) && Chunked(w.chunks, blockSize, size) && w.chunks == []
    ensures Content(w.blob) == [] == Join(w.chunks) && size == 0 && !Partial(w.chunks, blockSize)
    ensures UpToDate([]) && Answers([], []) && Accepted([], []) == []
  {
  }

  /** The file has d behind what it had; when bytes are lost they are all of the last block. */
  ghost predicate Extended(chunks: seq<Bytes>, chunks': seq<Bytes>, d: Bytes, lost: bool)
  {
    && |Join(chunks')| == |Join(chunks)| + |d| && Join(chunks')[|Join(chunks)|..] == d
    && if lost then chunks != [] && Join(chunks[..|chunks| - 1]) <= Join(chunks') else Join(chunks) <= Join(chunks')
  }

  lemma RebasedExtends(chunks: seq<Bytes>, chunks': seq<Bytes>, base: Bytes, d: Bytes, lost: bool)
    requires Rebased(chunks, base, lost) && Join(chunks') == base + d
    ensures Extended(chunks, chunks', d, lost)
  {
  }

  lemma SameExtends(chunks: seq<Bytes>)
    ensures Extended(chunks, chunks, [], false)
  {
  }

  lemma Intact(chunks: seq<Bytes>, base: Bytes)
    requires Rebased(chunks, base, false)
    ensures base == Join(chunks)
  {
  }

  lemma AsItWas(chunks: seq<Bytes>)
    ensures Rebased(chunks, Join(chunks), false)
  {
  }

  lemma PartialSize(chunks: seq<Bytes>, blockSize: nat, size: nat)
    requires Chunked(chunks, blockSize, size) && blockSize > 0
    ensures Partial(chunks, blockSize) <==> size % blockSize != 0
    ensures |Join(chunks)| == size
  {
    NextIndex(chunks, blockSize, size);
    FileSize(chunks, blockSize, size);
    assert size == size / blockSize * blockSize + size % blockSize;
  }

  /** Why a write stops short: the file has as many blocks as a blob may have, or the pool had none left and could not
      map one. */
  predicate Short(size: nat, blockSize: nat, starved: nat, starved': nat, free: seq<Ref>)
  {
    (size >= MAX_BLOCKS * blockSize && starved' == starved) || (starved' == starved + 1 && free == [])
  }

  /** Where the file has as many blocks as a blob may have. */
  lemma AtLimit(size: nat, blockSize: nat)
    requires blockSize > 0
    ensures size / blockSize >= MAX_BLOCKS <==> size >= MAX_BLOCKS * blockSize
  {
    var q := size / blockSize;
    assert size == q * blockSize + size % blockSize;
    if q >= MAX_BLOCKS {
      Multiples(MAX_BLOCKS, q, blockSize);
    } else {
      Multiples(q + 1, MAX_BLOCKS, blockSize);
    }
  }

  lemma Multiples(a: nat, b: nat, c: nat)
    requires a <= b
    ensures a * c <= b * c
  {
  }

  lemma Appended(base: Bytes, below: Bytes, data: Bytes, was: nat, more: nat)
    requires was + more <= |data| && (below == base + data[..was] || (was == 0 && below == base))
    ensures below + data[was..][..more] == base + data[..was + more]
  {
    assert data[..was + more] == data[..was] + data[was..][..more];
  }

  lemma AppendSize(w: State, base: Bytes, d: Bytes, chunks: seq<Bytes>, blockSize: nat, was: nat, size: nat, lost: bool)
    requires Chunked(w.chunks, blockSize, was) && Chunked(chunks, blockSize, size)
    requires Rebased(w.chunks, base, lost) && Join(chunks) == base + d
    ensures size == was + |d| && (!lost ==> base == Join(w.chunks))
  {
    FileSize(w.chunks, blockSize, was);
    FileSize(chunks, blockSize, size);
  }

  lemma ProgressPlaces(w: State, w': State)
    requires Progress(w, w')
    ensures w'.nodes == w.nodes && w'.chunks == w.chunks && w'.cooked == w.cooked && w'.cooking == w.cooking
  {
  }

  lemma TargetWhole(w: State, r: Ref, blockSize: nat, size: nat, refetched: bool, fetched: bool)
    requires Target(w, r, blockSize, size, refetched, fetched) && Settled(w, blockSize, size)
    ensures refetched && fetched ==> Content(w.blob) == Join(w.chunks)
  {
  }

  lemma SettledContent(w: State, blockSize: nat, size: nat)
    requires Settled(w, blockSize, size)
    ensures |Content(w.blob)| <= size && (size <= |Content(w.blob)| ==> Content(w.blob) == Join(w.chunks))
    ensures FullUploads(w, blockSize) && Ample(w)
  {
  }

  lemma SettledMore(w: State, w': State, blockSize: nat, size: nat, size': nat)
    requires Settled(w, blockSize, size) && size < size' && w'.blob == w.blob && w'.cooked == w.cooked
    requires w'.cooking == w.cooking
    requires FullUploads(w', blockSize)
    ensures Settled(w', blockSize, size')
  {
  }

  /** The block just written is on the map as the last one. */
  lemma LastHeld(w: State, w': State, r: Ref, blockSize: nat, nextId: Id, size: nat, refetched: bool, fetched: bool)
    requires Inv(w', {}, blockSize, nextId) && Target(w, r, blockSize, size, refetched, fetched)
    requires w'.cooking == w.cooking
    requires r in w'.blocks && w'.blocks[r].id == w.blocks[r].id && |w'.chunks| == Max(|w.chunks|, w.blocks[r].id + 1)
    ensures w'.chunks != [] && |w'.chunks| - 1 in w'.nodes
  {
  }

  /** A write of one byte to a new file with blocks of 4 bytes, up to the point where the flush that follows has
      uploaded the block and let go of it: opened, filled, lined up, staged, retired. */
  lemma FirstByteUploaded(b: Byte) returns (s0: State, s1: State, s2: State, s3: State, s4: State, s5: State)
    ensures s0.nodes == map[] && s0.cooked == s0.cooking == [] && s0.blob == PutBlob([]) && s0.chunks == []
    ensures WithOpen(s0, s1, 0, 0) && Filled(s1, s2, 0, [b], 4) && WentUp(s2, s3, 0, 0)
    ensures Attempted(s3, s4, WorkItem(0, 0, 0), true) && Finished(s4) && Retired(s4, s5)
    ensures s5 == State(s5.blocks, map[], [], [], map[0 := 0], Blob([], [], map[0 := [b]]), {}, [[b]])
  {
    var m := Block(-1, 0, 0, [0, 0, 0, 0], Pending, false, false, false);
    s0 := State(map[0 := m], map[], [], [], map[], PutBlob([]), {}, []);
    s1 := s0.(blocks := map[0 := m.(id := 0, state := Closed)], nodes := map[0 := 0], cooking := [0]);
    var f := Block(0, 0, 1, [b, 0, 0, 0], Closed, true, false, false);
    s2 := s1.(blocks := map[0 := f], chunks := [[b]]);
    s3 := LinedUp(s2, 0, 0);
    assert s3.cooking == [] && s3.cooked == [0];
    s4 := s3.(blob := PutBlock(s3.blob, 0, [b]), queue := {},
              blocks := map[0 := f.(synced := true, dirty := false, state := Ready)]);
    s5 := s4.(cooked := [], nodes := map[], blocks := map[0 := m]);
  }

  /** A failed flush does not always let go of the last block: when its upload is given up the block is put
      back, and the next append finds it. */
  lemma GivenUpStaysHeld(b: Byte) returns (s2: State, s3: State, a1: State, a2: State, a3: State, a4: State)
    ensures Join(s2.chunks) == [b] && WentUp(s2, s3, 0, 0) && Attempted(s3, a1, WorkItem(0, 0, 0), false)
    ensures Attempted(a1, a2, WorkItem(0, 0, 1), false) && Attempted(a2, a3, WorkItem(0, 0, 2), false)
    ensures Attempted(a3, a4, WorkItem(0, 0, 3), false) && Finished(a4) && a4.blocks[a4.cooked[0]].failed
    ensures Partial(Returned(a4).chunks, 4) && 0 in Returned(a4).nodes
  {
    var f := Block(0, 0, 1, [b, 0, 0, 0], Closed, true, false, false);
    s2 := State(map[0 := f], map[0 := 0], [], [0], map[], PutBlob([]), {}, [[b]]);
    s3 := LinedUp(s2, 0, 0);
    assert s3.cooking == [] && s3.cooked == [0];
    assert WorkItem(0, 0, 0) in s3.queue;
    a1 := s3.(queue := {WorkItem(0, 0, 1)});
    a2 := s3.(queue := {WorkItem(0, 0, 2)});
    a3 := s3.(queue := {WorkItem(0, 0, 3)});
    a4 := s3.(queue := {}, blocks := s3.blocks[0 := s3.blocks[0].(failed := true, state := Ready)]);
    assert [[b]][..0] == [] && Join([[b]]) == Join([]) + [b];
  }

  /** A run that loses a byte. The first byte is uploaded and its block let go of; the flush then fails to
      commit, so the blob is empty still. The next append takes a block for the same place, and a download
      of a byte the blob does not have cannot succeed, whatever the storage serves. Any byte x that the
      reused memory holds takes the place of the byte written. */
  lemma StaleAppendLoses(b: Byte, x: Byte, c: Byte)
    returns (s0: State, s1: State, s2: State, s3: State, s4: State, s5: State, s6: State, s7: State, s8: State)
    ensures s0.nodes == map[] && s0.cooked == s0.cooking == [] && s0.blob == PutBlob([]) && s0.chunks == []
    ensures WithOpen(s0, s1, 0, 0) && Filled(s1, s2, 0, [b], 4) && WentUp(s2, s3, 0, 0)
    ensures Attempted(s3, s4, WorkItem(0, 0, 0), true) && Finished(s4) && Retired(s4, s5)
    ensures Join(s5.chunks) == [b] && Partial(s5.chunks, 4) && 0 !in s5.nodes && Content(s5.blob) == []
    ensures WithOpen(s5, s6, 0, 0) && 0 in s6.blocks && 0 in s7.blocks
    ensures s7 == s6.(blocks := s6.blocks[0 := s7.blocks[0]])
    ensures Delivered(s6.blocks[0], s7.blocks[0], Content(s6.blob), 4, 1, false)
    ensures Filled(s7, s8, 0, [x, c], 4) && Join(s8.chunks) == [x, c]
  {
    s0, s1, s2, s3, s4, s5 := FirstByteUploaded(b);
    hide Attempted, Retired, Finished, LinedUp;
    var o := Block(0, 0, 0, [0, 0, 0, 0], Pending, false, false, false);
    s6 := s5.(blocks := map[0 := o], nodes := map[0 := 0], cooking := [0]);
    s7 := s6.(blocks := s6.blocks[0 := o.(data := [x, 0, 0, 0], failed := true, state := Closed)]);
    s8 := s7.(blocks := s7.blocks[0 := Block(0, 0, 2, [x, c, 0, 0], Closed, true, true, false)], chunks := [[x, c]]);
    assert forall k: Bytes :: [k][..0] == [];
    assert Join([[b]]) == Join([]) + [b] && Join([[x, c]]) == Join([]) + [x, c];
  }

  lemma {:induction false} FileSize(chunks: seq<Bytes>, blockSize: nat, size: nat)
    requires Chunked(chunks, blockSize, size)
    ensures |Join(chunks)| == size
  {
    if chunks != [] { JoinLength(chunks[..|chunks| - 1], blockSize); }
  }

  lemma NoNodes(w: State, blockSize: nat, nextId: Id)
    requires Inv(w, {}, blockSize, nextId) && w.cooked == [] && w.cooking == []
    ensures w.nodes == map[]
  {
  }

  lemma NoBlocks(w: State, blockSize: nat, nextId: Id)
    requires Inv(w, {}, blockSize, nextId) && w.nodes.Keys == {}
    ensures w.cooked == [] && w.cooking == []
  {
    hide Inv;
    if w.cooked != [] { HeldIsMapped(w, w.cooked[0], blockSize, nextId); }
    if w.cooking != [] { HeldIsMapped(w, w.cooking[0], blockSize, nextId); }
  }

  lemma HeldIsMapped(w: State, r: Ref, blockSize: nat, nextId: Id)
    requires Inv(w, {}, blockSize, nextId) && (r in w.cooked || r in w.cooking)
    ensures w.nodes.Keys != {}
  {
    assert w.blocks[r].id in w.nodes.Keys;
  }

  /** Where the next byte of the file goes. */
  lemma NextIndex(chunks: seq<Bytes>, blockSize: nat, size: nat)
    requires Chunked(chunks, blockSize, size) && blockSize > 0
    ensures var k := size / blockSize;
      if chunks == [] || |chunks[|chunks| - 1]| == blockSize then k == |chunks| && size == k * blockSize
      else k == |chunks| - 1 && k * blockSize < size < k * blockSize + blockSize && size == k * blockSize + |chunks[k]|
  {
    var n := |chunks|;
    if n > 0 {
      var k := if |chunks[n - 1]| == blockSize then n else n - 1;
      assert size == k * blockSize + (size - k * blockSize) && 0 <= size - k * blockSize < blockSize;
      DivIs(size, blockSize, k);
    }
  }

  lemma DivIs(a: nat, b: nat, k: nat)
    requires b > 0 && k * b <= a < k * b + b
    ensures a / b == k
  {
    var q := a / b;
    assert q * b <= a < q * b + b;
    TimesMore(q, k, b);
    TimesMore(k, q, b);
  }

  lemma {:induction false} TimesMore(q: nat, k: nat, b: nat)
    ensures q > k ==> q * b >= k * b + b
    decreases q
  {
    if q > k {
      assert q * b == (q - 1) * b + b;
      TimesMore(q - 1, k, b);
    }
  }

  lemma ProgressNone(w: State)
    ensures Progress(w, w)
  {
  }

  lemma ProgressMore(w: State, v: State, u: State)
    requires Progress(w, v) && Progress(v, u)
    ensures Progress(w, u)
  {
  }

  lemma InHandFacts(w: State, r: Ref, open: set<Ref>, blockSize: nat, nextId: Id)
    requires Inv(w, open, blockSize, nextId) && r in w.cooked
    ensures r in w.blocks && w.blocks[r].state != Closed
    ensures w.blocks[r].state == Pending ==> exists x :: x in w.queue && x.block == r
    ensures forall x :: x in w.queue ==> x.failCnt <= MAX_FAIL_CNT
  {
    assert InHand(w, r, blockSize);
  }

  lemma AttemptOutcome(w: State, w': State, x: WorkItem, ok: bool)
    requires Attempted(w, w', x, ok)
    ensures x.block in w'.blocks
    ensures (w'.blocks[x.block].state == Ready || (Again(x) in w'.queue && x.failCnt < MAX_FAIL_CNT))
  {
  }

  lemma PoolKept(w: State, w': State, free: seq<Ref>, nextRef: Ref, maxBlocks: nat, blockSize: nat, others: map<Ref,
                 Block>)
    requires Progress(w, w') && Sound(free, w.blocks, nextRef, maxBlocks, blockSize)
    requires Owned(w.blocks.Keys, free, w.cooked, w.cooking, others.Keys) && Theirs(w.blocks, others)
    ensures Sound(free, w'.blocks, nextRef, maxBlocks, blockSize) && w'.blocks.Keys == w.blocks.Keys
    ensures Theirs(w'.blocks, others)
  {
  }

  /** A handle is none the worse for what others do to blocks that are not its own. */
  lemma NotDisturbed(w: State, blocks: map<Ref, Block>, open: set<Ref>, blockSize: nat, nextId: Id, size: nat)
    requires Inv(w, open, blockSize, nextId) && Settled(w, blockSize, size)
    requires forall r :: (r in w.cooked || r in w.cooking) && r in w.blocks ==> r in blocks && blocks[r] == w.blocks[r]
    ensures Inv(w.(blocks := blocks), open, blockSize, nextId) && Settled(w.(blocks := blocks), blockSize, size)
  {
    var w' := w.(blocks := blocks);
    forall q | q in w.cooked ensures InHand(w', q, blockSize) { assert InHand(w, q, blockSize); }
    assert forall x :: x in w.queue ==> x.block in QueueBlocks(w.queue);
    assert forall k: nat :: k < |w.chunks| && StagedAs(w, k) ==> StagedAs(w', k);
  }

  lemma ItemFacts(w: State, x: WorkItem, open: set<Ref>, blockSize: nat, nextId: Id)
    requires Inv(w, open, blockSize, nextId) && x in w.queue
    ensures x.block in w.cooked && InHand(w, x.block, blockSize) && w.blocks[x.block].state == Pending
    ensures x.block in w.blocks
    ensures var b := w.blocks[x.block]; b.offset <= b.endIndex <= b.offset + |b.data|
  {
    assert x.block in QueueBlocks(w.queue);
    assert InHand(w, x.block, blockSize);
  }
}
