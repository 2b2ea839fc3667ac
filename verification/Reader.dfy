/** Reading a file through the block cache: blocks are downloaded by workers in any order, ahead of
    the reader, and reused when they have been read. */
module Reader {
  import opened FlatFile
  import opened BlockPool
  import opened Sequences

  const MIN_PREFETCH := 5
  const MIN_RANDREAD := 10
  const MAX_FAIL_CNT := 3

  datatype Item = Item(block: Ref, failCnt: nat)

  function Again(x: Item): Item { x.(failCnt := x.failCnt + 1) }

  /** The memory, the handle's map and lists, and the download items the workers have yet to finish. */
  datatype State = State(blocks: map<Ref, Block>, nodes: map<nat, Ref>, cooked: seq<Ref>, cooking: seq<Ref>,
                         queue: set<Item>)

  function QueueBlocks(queue: set<Item>): set<Ref> { set x | x in queue :: x.block }

  /** The block is the one at its place in the file. */
  ghost predicate Placed(b: Block, file: Bytes, blockSize: nat)
  {
    b.id >= 0 && b.offset == b.id * blockSize && b.offset < |file| && |b.data| == blockSize
  }

  /** ... and holds the bytes of the file there. */
  ghost predicate Good(b: Block, file: Bytes, blockSize: nat)
  {
    Placed(b, file, blockSize) && var n := Min(blockSize,
                                               |file| - b.offset); b.data[..n] == file[b.offset..b.offset + n]
  }

  /** A block under download, or whose download has ended; sure says that none was given up. */
  ghost predicate InFlight(w: State, r: Ref, file: Bytes, blockSize: nat, sure: bool)
  {
    && r in w.blocks && var b := w.blocks[r];
    && Placed(b, file, blockSize) && b.state != Closed && (b.state == Pending <==> r in QueueBlocks(w.queue))
    && (b.state == Pending || sure ==> !b.failed) && (b.state == Ready ==> b.failed || Good(b, file, blockSize))
  }

  /** A block open to all readers, or not used yet. Only random reads leave failed blocks here. */
  ghost predicate Idle(w: State, r: Ref, file: Bytes, blockSize: nat, calm: bool)
  {
    && r in w.blocks && var b := w.blocks[r];
    && (calm ==> !b.failed)
    && (b.id == -1 || (b.state == Closed && Placed(b, file, blockSize) && (b.failed || Good(b, file, blockSize))))
  }

  /** The handle's map is the index of its two lists. */
  ghost predicate Mapped(w: State)
  {
    && Unrepeated(w.cooked) && Unrepeated(w.cooking)
    && (forall r :: r in w.cooked ==> r !in w.cooking && r in w.blocks)
    && (forall r :: r in w.cooking ==> r in w.blocks && w.blocks[r].id >= 0)
    && (forall r :: (r in w.cooked || r in w.cooking) && w.blocks[r].id >= 0 ==>
          w.blocks[r].id in w.nodes && w.nodes[w.blocks[r].id] == r)
    && (forall k :: k in w.nodes ==>
          (w.nodes[k] in w.cooked || w.nodes[k] in w.cooking) && w.nodes[k] in w.blocks && w.blocks[w.nodes[k]].id == k)
  }

  /** Each item is for another block, which is under download. */
  ghost predicate QueueOk(w: State)
  {
    && (forall x, y :: x in w.queue && y in w.queue && x.block == y.block ==> x == y)
    && (forall x :: x in w.queue ==> x.failCnt <= MAX_FAIL_CNT + 1)
    && (forall r :: r in QueueBlocks(w.queue) ==> r in w.cooking)
  }

  ghost predicate Loading(w: State, file: Bytes, blockSize: nat,
                          sure: bool) { forall r :: r in w.cooking ==> InFlight(w, r, file, blockSize, sure) }

  ghost predicate Open(w: State, file: Bytes, blockSize: nat,
                       calm: bool) { forall r :: r in w.cooked ==> Idle(w, r, file, blockSize, calm) }

  ghost predicate Inv(w: State, file: Bytes, blockSize: nat, calm: bool, sure: bool)
  {
    Mapped(w) && QueueOk(w) && Loading(w, file, blockSize, sure) && Open(w, file, blockSize, calm)
  }

  /** Block `index` is open to all readers though its download was given up: a read returns whatever it holds. */
  ghost predicate Spoilt(w: State, index: nat)
  {
    && index in w.nodes && w.nodes[index] in w.cooked && w.nodes[index] in w.blocks
    && w.blocks[w.nodes[index]].failed
  }

  /** Block `index` has been given up, and nobody has looked at it since. */
  ghost predicate Doomed(w: State, index: nat)
  {
    && index in w.nodes && w.nodes[index] in w.cooking && w.nodes[index] in w.blocks
    && w.blocks[w.nodes[index]].failed && w.blocks[w.nodes[index]].state == Ready
  }

  ghost predicate NoMoreSpoilt(w: State, w': State) { forall k :: Spoilt(w', k) ==> Spoilt(w, k) }

  ghost predicate NoMoreDoomed(w: State, w': State) { forall k :: Doomed(w', k) ==> Doomed(w, k) }

  /** With the blocks given up so far, then and now: a block that is doomed was so then or has been given up since. */
  ghost predicate Accounted(w: State, given: seq<nat>, w': State, given': seq<nat>)
  {
    given <= given' && forall k :: Doomed(w', k) ==> Doomed(w, k) || k in given'[|given|..]
  }

  lemma AccountedMore(w: State, g: seq<nat>, v: State, g': seq<nat>, u: State, g'': seq<nat>)
    requires Accounted(w, g, v, g') && Accounted(v, g', u, g'')
    ensures Accounted(w, g, u, g'')
  {
    assert g''[|g|..] == g'[|g|..] + g''[|g'|..];
  }

  lemma AccountedSame(w: State, w': State, g: seq<nat>)
    requires NoMoreDoomed(w, w')
    ensures Accounted(w, g, w', g)
  {
  }

  lemma NotDoomedMore(w: State, v: State, u: State)
    requires NoMoreDoomed(w, v) && NoMoreDoomed(v, u)
    ensures NoMoreDoomed(w, u)
  {
  }

  lemma DoomsNone(w: State)
    ensures NoMoreDoomed(w, w)
  {
  }

  lemma AccountedNow(w: State, g: seq<nat>)
    ensures Accounted(w, g, w, g)
  {
  }

  /** When no download was given up, nothing is doomed. */
  lemma NoneDoomed(w: State, k: nat, file: Bytes, blockSize: nat, calm: bool)
    requires Inv(w, file, blockSize, calm, true)
    ensures !Doomed(w, k)
  {
    if k in w.nodes && w.nodes[k] in w.cooking { assert InFlight(w, w.nodes[k], file, blockSize, true); }
  }

  /** An attempt dooms no block but the one it gives up. */
  lemma AttemptDooms(w: State, w': State, x: Item, ok: bool, file: Bytes, blockSize: nat, calm: bool, sure: bool,
                     given: seq<nat>, index: nat)
    requires Inv(w, file, blockSize, calm, sure) && Attempted(w, w', x, ok, file, blockSize)
    requires index == w.blocks[x.block].id
    ensures Accounted(w, given, w', if x.failCnt > MAX_FAIL_CNT then given + [index] else given)
  {
    ItemFacts(w, x, file, blockSize, calm, sure);
    assert InFlight(w, x.block, file, blockSize, sure) && x.block in QueueBlocks(w.queue);
    var given' := if x.failCnt > MAX_FAIL_CNT then given + [index] else given;
    assert x.failCnt > MAX_FAIL_CNT ==> given'[|given|..] == [index];
    hide Loading, Open, QueueOk, Placed, Good;
  }

  lemma ServeDooms(w: State, i: nat, file: Bytes, blockSize: nat, calm: bool, sure: bool)
    requires Inv(w, file, blockSize, calm, sure) && i < |w.cooking| && w.cooking[i] in w.blocks
    ensures NoMoreDoomed(w, Served(w, i))
  {
    WithoutMember(w.cooking, i);
    hide Loading, Open, QueueOk;
  }

  /** Nothing is doomed while all that is left is under download. */
  lemma PendingOnly(w: State, w': State)
    requires forall i :: 0 <= i < |w'.cooking| ==>
      w'.cooking[i] in w'.blocks && w'.blocks[w'.cooking[i]].state == Pending
    ensures NoMoreDoomed(w, w')
  {
  }

  lemma ServeSpoilt(w: State, i: nat, k: nat)
    requires Mapped(w) && i < |w.cooking| && w.cooking[i] in w.blocks && w.blocks[w.cooking[i]].state == Ready
    ensures Spoilt(Served(w, i), k) <==> Spoilt(w, k) || (Doomed(w, k) && w.nodes[k] == w.cooking[i])
  {
    var w' := Served(w, i);
    assert forall q :: q in w'.cooked <==> q in w.cooked || q == w.cooking[i];
  }

  lemma ServeSpoils(w: State, i: nat, file: Bytes, blockSize: nat, calm: bool, sure: bool)
    requires Inv(w, file, blockSize, calm, sure) && i < |w.cooking| && w.cooking[i] in w.blocks
    requires w.blocks[w.cooking[i]].state == Ready
    ensures forall k :: Spoilt(Served(w, i), k) <==> Spoilt(w, k) || (Doomed(w, k) && w.nodes[k] == w.cooking[i])
  {
    hide Spoilt, Mapped;
    forall k ensures Spoilt(Served(w, i), k) <==> Spoilt(w, k) || (Doomed(w, k) && w.nodes[k] == w.cooking[i]) {
      ServeSpoilt(w, i, k);
    }
  }

  lemma ServeSpoilsNone(w: State, i: nat, file: Bytes, blockSize: nat, calm: bool, sure: bool)
    requires Inv(w, file, blockSize, calm, sure) && i < |w.cooking| && w.cooking[i] in w.blocks
    requires w.blocks[w.cooking[i]].state == Ready && !w.blocks[w.cooking[i]].failed
    ensures NoMoreSpoilt(w, Served(w, i))
  {
    ServeSpoils(w, i, file, blockSize, calm, sure);
  }

  /** The workers spoil nothing. */
  lemma ProgressSpoils(w: State, w': State, file: Bytes, blockSize: nat, calm: bool, sure: bool)
    requires Inv(w, file, blockSize, calm, sure) && Progress(w, w')
    ensures forall k :: Spoilt(w', k) <==> Spoilt(w, k)
  {
  }

  lemma ProgressLeaves(w: State, w': State, index: nat, file: Bytes, blockSize: nat, calm: bool, sure: bool)
    requires Inv(w, file, blockSize, calm, sure) && Progress(w, w')
    ensures Spoilt(w, index) ==>
      && index in w.nodes && w.nodes[index] in w.blocks && w.nodes[index] in w'.blocks
      && w'.blocks[w.nodes[index]] == w.blocks[w.nodes[index]]
  {
  }

  lemma NoMoreNone(w: State)
    ensures NoMoreSpoilt(w, w)
  {
  }

  lemma NoMoreMore(w: State, v: State, u: State)
    requires NoMoreSpoilt(w, v) && NoMoreSpoilt(v, u)
    ensures NoMoreSpoilt(w, u)
  {
  }

  /** What one attempt at item x comes to. The attempt after the last retry is given up whatever the
      read said; a failed read may leave anything in the block. */
  ghost predicate Attempted(w: State, w': State, x: Item, ok: bool, file: Bytes, blockSize: nat)
  {
    && x in w.queue && x.block in w.blocks && x.block in w'.blocks
    && var b, b' := w.blocks[x.block], w'.blocks[x.block];
    && Placed(b, file, blockSize)
    && w' == w.(queue := w'.queue, blocks := w.blocks[x.block := b'])
    && |b'.data| == blockSize
    && (if x.failCnt > MAX_FAIL_CNT
        then b' == b.(data := b'.data, endIndex := b.offset, failed := true, state := Ready)
        else if !ok then b' == b.(data := b'.data, endIndex := b.offset)
        else b' == b.(data := b'.data, endIndex := b'.endIndex, state := Ready) && Good(b', file, blockSize))
    && w'.queue == w.queue - {x} + (if x.failCnt <= MAX_FAIL_CNT && !ok then {Again(x)} else {})
  }

  lemma ItemTaken(queue: set<Item>, x: Item)
    requires x in queue && forall x, y :: x in queue && y in queue && x.block == y.block ==> x == y
    ensures QueueBlocks(queue - {x}) == QueueBlocks(queue) - {x.block}
    ensures QueueBlocks(queue - {x} + {Again(x)}) == QueueBlocks(queue)
  {
  }

  lemma AttemptKeeps(w: State, w': State, x: Item, ok: bool, file: Bytes, blockSize: nat, calm: bool, sure: bool)
    requires Inv(w, file, blockSize, calm, sure) && Attempted(w, w', x, ok, file, blockSize)
    requires sure ==> x.failCnt <= MAX_FAIL_CNT
    ensures Inv(w', file, blockSize, calm, sure)
  {
    ItemTaken(w.queue, x);
    assert x.block in QueueBlocks(w.queue);
    assert InFlight(w, x.block, file, blockSize, sure);
    AttemptLists(w, w', x, ok, file, blockSize);
    forall r | r in w.cooking ensures InFlight(w', r, file, blockSize, sure) {
      assert InFlight(w, r, file, blockSize, sure);
    }
    forall r | r in w.cooked ensures Idle(w', r, file, blockSize, calm) { assert Idle(w, r, file, blockSize, calm); }
    hide Mapped, QueueOk, InFlight, Idle, Attempted;
  }

  lemma AttemptLists(w: State, w': State, x: Item, ok: bool, file: Bytes, blockSize: nat)
    requires Mapped(w) && QueueOk(w) && Attempted(w, w', x, ok, file, blockSize)
    ensures Mapped(w') && QueueOk(w')
  {
    ItemTaken(w.queue, x);
  }

  /** A block from the pool, not used yet, at the front of the free list of the handle. */
  ghost predicate Pushed(w: State, w': State, r: Ref)
  {
    && r !in w.cooked && r !in w.cooking && r in w'.blocks && w'.blocks[r] == ReUsed(w'.blocks[r])
    && w' == w.(blocks := w.blocks[r := w'.blocks[r]], cooked := [r] + w.cooked)
  }

  lemma PushKeeps(w: State, w': State, r: Ref, file: Bytes, blockSize: nat, calm: bool, sure: bool)
    requires Inv(w, file, blockSize, calm, sure) && Pushed(w, w', r)
    ensures Inv(w', file, blockSize, calm, sure)
  {
    assert forall q :: q in w'.cooked <==> q in w.cooked || q == r;
    forall q | q in w.cooking ensures InFlight(w', q, file, blockSize, sure) {
      assert InFlight(w, q, file, blockSize, sure);
    }
    forall q | q in w.cooked ensures Idle(w', q, file, blockSize, calm) { assert Idle(w, q, file, blockSize, calm); }
  }

  /** refreshBlock and lineupDownload: the block at the front of the free list is now block `index`. */
  function Refreshed(w: State, index: nat, blockSize: nat): State
    requires w.cooked != [] && w.cooked[0] in w.blocks
  {
    var r := w.cooked[0];
    var b := w.blocks[r];
    w.(nodes := (if b.id >= 0 then w.nodes - {b.id} else w.nodes)[index := r], cooked := w.cooked[1..],
       cooking := [r] + w.cooking,
       blocks := w.blocks[r := ReUsed(b).(id := index, offset := index * blockSize)], queue := w.queue + {Item(r, 0)})
  }

  lemma RefreshLists(w: State, index: nat, blockSize: nat)
    requires Mapped(w) && QueueOk(w) && w.cooked != [] && index !in w.nodes
    ensures w.cooked[0] in w.blocks && w.cooked[0] !in w.cooking
    ensures var r, w' := w.cooked[0], Refreshed(w, index, blockSize);
      && Mapped(w') && QueueOk(w') && QueueBlocks(w'.queue) == QueueBlocks(w.queue) + {r}
      && (forall q :: q in w'.cooking <==> q in w.cooking || q == r) && (forall q :: q in w'.cooked <==>
            q in w.cooked && q != r)
  {
    var r, w' := w.cooked[0], Refreshed(w, index, blockSize);
    FrontGone(w.cooked);
    assert forall q :: q in w'.cooking <==> q in w.cooking || q == r;
    assert QueueBlocks(w'.queue) == QueueBlocks(w.queue) + {r};
  }

  lemma RefreshKeeps(w: State, index: nat, file: Bytes, blockSize: nat, calm: bool, sure: bool)
    requires Inv(w, file, blockSize, calm, sure) && w.cooked != [] && index !in w.nodes && index * blockSize < |file|
    requires forall r :: r in w.cooked && r in w.blocks ==> |w.blocks[r].data| == blockSize
    ensures w.cooked[0] in w.blocks && Inv(Refreshed(w, index, blockSize), file, blockSize, calm, sure)
  {
    var r, w' := w.cooked[0], Refreshed(w, index, blockSize);
    RefreshLists(w, index, blockSize);
    hide Mapped, QueueOk, Unrepeated;
    forall q | q in w'.cooking ensures InFlight(w', q, file, blockSize, sure) {
      if q != r { assert InFlight(w, q, file, blockSize, sure); }
    }
    forall q | q in w'.cooked ensures Idle(w', q, file, blockSize, calm) { assert Idle(w, q, file, blockSize, calm); }
  }

  /** A block whose download has ended is opened to all readers. */
  function Served(w: State, i: nat): State
    requires i < |w.cooking| && w.cooking[i] in w.blocks
  {
    var r := w.cooking[i];
    w.(cooking := Without(w.cooking, i), cooked := w.cooked + [r],
       blocks := w.blocks[r := w.blocks[r].(state := Closed)])
  }

  lemma ServeLists(w: State, i: nat)
    requires Mapped(w) && QueueOk(w) && i < |w.cooking| && w.cooking[i] in w.blocks
    requires w.cooking[i] !in QueueBlocks(w.queue)
    ensures Mapped(Served(w, i)) && QueueOk(Served(w, i))
    ensures forall q :: q in Served(w, i).cooking <==> q in w.cooking && q != w.cooking[i]
    ensures forall q :: q in Served(w, i).cooked <==> q in w.cooked || q == w.cooking[i]
  {
    WithoutMember(w.cooking, i);
    assert forall q :: q in Served(w, i).cooked <==> q in w.cooked || q == w.cooking[i];
  }

  lemma ServeKeeps(w: State, i: nat, file: Bytes, blockSize: nat, calm: bool, sure: bool)
    requires Inv(w, file, blockSize, calm, sure) && i < |w.cooking| && w.cooking[i] in w.blocks
    requires w.blocks[w.cooking[i]].state == Ready
    requires calm ==> !w.blocks[w.cooking[i]].failed
    ensures Inv(Served(w, i), file, blockSize, calm, sure)
  {
    var r, w' := w.cooking[i], Served(w, i);
    assert InFlight(w, r, file, blockSize, sure);
    ServeLists(w, i);
    hide Without, Mapped, QueueOk, Unrepeated;
    forall q | q in w'.cooking ensures InFlight(w', q, file, blockSize, sure) {
      assert InFlight(w, q, file, blockSize, sure);
    }
    forall q | q in w.cooked ensures Idle(w', q, file, blockSize, calm) { assert Idle(w, q, file, blockSize, calm); }
  }

  /** Block r, on one of the lists until now, is gone from the handle. */
  ghost predicate Dropped(w: State, w': State, r: Ref)
  {
    && r in w.blocks && r !in QueueBlocks(w.queue)
    && w' == w.(nodes := if w.blocks[r].id >= 0 then w.nodes - {w.blocks[r].id} else w.nodes, cooked := w'.cooked,
                cooking := w'.cooking, blocks := w'.blocks)
    && Unrepeated(w'.cooked) && Unrepeated(w'.cooking)
    && (forall q :: q in w'.cooked <==> q in w.cooked && q != r) && (forall q :: q in w'.cooking <==>
          q in w.cooking && q != r)
    && (forall q :: (q in w'.cooked || q in w'.cooking) && q in w.blocks ==>
          q in w'.blocks && w'.blocks[q] == w.blocks[q])
  }

  lemma LetGo(w: State, w': State, r: Ref)
    requires r in w.blocks && r !in QueueBlocks(w.queue)
    requires w' == w.(nodes := w'.nodes, cooked := w'.cooked, cooking := w'.cooking, blocks := w'.blocks)
    requires w'.nodes == if w.blocks[r].id >= 0 then w.nodes - {w.blocks[r].id} else w.nodes
    requires Unrepeated(w'.cooked) && Unrepeated(w'.cooking)
    requires (forall q :: q in w'.cooked <==> q in w.cooked && q != r)
    requires (forall q :: q in w'.cooking <==> q in w.cooking && q != r)
    requires forall q :: q in w.blocks && q != r ==> q in w'.blocks && w'.blocks[q] == w.blocks[q]
    ensures Dropped(w, w', r)
  {
  }

  lemma DropKeeps(w: State, w': State, r: Ref, file: Bytes, blockSize: nat, calm: bool, sure: bool)
    requires Inv(w, file, blockSize, calm, sure) && Dropped(w, w', r) && (r in w.cooked || r in w.cooking)
    ensures Inv(w', file, blockSize, calm, sure)
  {
    forall q | q in w'.cooking ensures InFlight(w', q, file, blockSize, sure) {
      assert InFlight(w, q, file, blockSize, sure);
    }
    forall q | q in w'.cooked ensures Idle(w', q, file, blockSize, calm) { assert Idle(w, q, file, blockSize, calm); }
  }

  lemma Weaken(w: State, file: Bytes, blockSize: nat, calm: bool, sure: bool, calm': bool, sure': bool)
    requires Inv(w, file, blockSize, calm, sure) && (calm' ==> calm) && (sure' ==> sure)
    ensures Inv(w, file, blockSize, calm', sure')
  {
    forall q | q in w.cooking ensures InFlight(w, q, file, blockSize, sure') {
      assert InFlight(w, q, file, blockSize, sure);
    }
    forall q | q in w.cooked ensures Idle(w, q, file, blockSize, calm') { assert Idle(w, q, file, blockSize, calm); }
  }

  /** What the workers may change while the reader waits: the blocks under download. */
  ghost predicate Progress(w: State, w': State)
  {
    && w' == w.(queue := w'.queue, blocks := w'.blocks) && w'.blocks.Keys == w.blocks.Keys
    && (forall r :: r in w.blocks && r !in w.cooking ==> w'.blocks[r] == w.blocks[r])
    && (forall r :: r in w.blocks ==> w'.blocks[r].id == w.blocks[r].id && |w'.blocks[r].data| == |w.blocks[r].data|)
  }

  lemma AttemptProgress(w: State, w': State, x: Item, ok: bool, file: Bytes, blockSize: nat, calm: bool, sure: bool)
    requires Inv(w, file, blockSize, calm, sure) && Attempted(w, w', x, ok, file, blockSize)
    ensures Progress(w, w')
  {
    assert x.block in QueueBlocks(w.queue);
  }

  lemma ProgressPlaces(w: State, w': State)
    requires Progress(w, w')
    ensures w'.nodes == w.nodes && w'.cooked == w.cooked && w'.cooking == w.cooking
  {
  }

  lemma ProgressNone(w: State)
    ensures Progress(w, w)
  {
  }

  lemma ProgressMore(w: State, v: State, u: State)
    requires Progress(w, v) && Progress(v, u)
    ensures Progress(w, u)
  {
  }

  lemma ItemFacts(w: State, x: Item, file: Bytes, blockSize: nat, calm: bool, sure: bool)
    requires Inv(w, file, blockSize, calm, sure) && x in w.queue
    ensures x.block in w.cooking && x.block in w.blocks && Placed(w.blocks[x.block], file, blockSize)
  {
    assert x.block in QueueBlocks(w.queue);
    assert InFlight(w, x.block, file, blockSize, sure);
  }

  lemma ItemPlaced(w: State, x: Item, file: Bytes, blockSize: nat)
    requires x.block in w.blocks && Placed(w.blocks[x.block], file, blockSize)
    ensures w.blocks[x.block].id >= 0
  {
  }

  lemma InFlightFacts(w: State, r: Ref, file: Bytes, blockSize: nat, calm: bool, sure: bool)
    requires Inv(w, file, blockSize, calm, sure) && r in w.cooking
    ensures InFlight(w, r, file, blockSize, sure) && r in w.blocks && w.blocks[r].state != Closed
    ensures w.blocks[r].state == Pending ==> exists x :: x in w.queue && x.block == r
    ensures forall x :: x in w.queue ==> x.failCnt <= MAX_FAIL_CNT + 1
  {
  }

  lemma AttemptOutcome(w: State, w': State, x: Item, ok: bool, file: Bytes, blockSize: nat)
    requires Attempted(w, w', x, ok, file, blockSize)
    ensures w'.blocks[x.block].state == Ready || (Again(x) in w'.queue && x.failCnt <= MAX_FAIL_CNT)
  {
  }

  lemma PoolKept(w: State, w': State, free: seq<Ref>, nextRef: Ref, maxBlocks: nat, blockSize: nat, others: map<Ref,
                 Block>)
    requires Progress(w, w') && Sound(free, w.blocks, nextRef, maxBlocks, blockSize)
    requires Owned(w.blocks.Keys, free, w.cooked, w.cooking, others.Keys) && Theirs(w.blocks, others)
    ensures Sound(free, w'.blocks, nextRef, maxBlocks, blockSize) && w'.blocks.Keys == w.blocks.Keys
    ensures Theirs(w'.blocks, others)
  {
  }

  lemma NewHandle(w: State, file: Bytes, blockSize: nat)
    requires w == State(w.blocks, map[], [], [], {})
    ensures Inv(w, file, blockSize, true, true)
  {
  }

  /** A handle is none the worse for what others do to blocks that are not its own. */
  lemma NotDisturbed(w: State, blocks: map<Ref, Block>, file: Bytes, blockSize: nat, calm: bool, sure: bool)
    requires Inv(w, file, blockSize, calm, sure)
    requires forall r :: (r in w.cooked || r in w.cooking) && r in w.blocks ==> r in blocks && blocks[r] == w.blocks[r]
    ensures Inv(w.(blocks := blocks), file, blockSize, calm, sure)
  {
    var w' := w.(blocks := blocks);
    forall q | q in w.cooking ensures InFlight(w', q, file, blockSize, sure) {
      assert InFlight(w, q, file, blockSize, sure);
    }
    forall q | q in w.cooked ensures Idle(w', q, file, blockSize, calm) { assert Idle(w, q, file, blockSize, calm); }
  }

  class Reader {
    const pool: BlockPool
    const blockSize: nat
    const prefetch: nat
    const file: Bytes                // the bytes of the blob, as many as the handle's Size
    var nodes: map<nat, Ref>
    var cooked: seq<Ref>
    var cooking: seq<Ref>
    var queue: set<Item>
    var next: nat                    // index of the next block to prefetch
    var optCnt: nat                  // random reads so far
    ghost var given: seq<nat>        // the blocks of the file whose downloads ran out of retries
    ghost var starved: nat           // how often the pool had no block left and could not map one
    ghost var others: map<Ref, Block>    // the blocks held by other handles, as they are

    ghost function St(): State
      reads this, pool
    {
      State(pool.blocks, nodes, cooked, cooking, queue)
    }

    /** Some download ran out of retries. */
    ghost predicate GaveUp()
      reads this
    {
      given != []
    }

    /** Reads are sequential, or no download has been given up. */
    ghost predicate Calm()
      reads this
    {
      optCnt <= MIN_RANDREAD || !GaveUp()
    }

    ghost predicate Valid()
      reads this, pool
    {
      && pool.Valid() && pool.blockSize == blockSize > 0
      && Owned(pool.blocks.Keys, pool.free, cooked, cooking, others.Keys) && Theirs(pool.blocks, others)
      && var kept := Inv(St(), file, blockSize, Calm(), !GaveUp()); kept
    }

    ghost function Total(): nat
      reads this
    {
      |cooked| + |cooking|
    }

    constructor (pool: BlockPool, prefetch: nat, file: Bytes, ghost others: map<Ref, Block>)
      requires pool.Valid() && pool.blockSize > 0
      requires Owned(pool.blocks.Keys, pool.free, [], [], others.Keys) && Theirs(pool.blocks, others)
      ensures Valid() && this.pool == pool && this.others == others && this.file == file && this.prefetch == prefetch
      ensures nodes == map[] && cooked == [] && cooking == [] && next == 0 && optCnt == 0 && given == [] && starved == 0
    {
      this.pool, this.prefetch, this.file, this.others, blockSize := pool, prefetch, file, others, pool.blockSize;
      nodes, cooked, cooking, queue, next, optCnt, given, starved := map[], [], [], {}, 0, 0, [], 0;
      new;
      hide Inv, Owned, Sound, Theirs;
      NewHandle(St(), file, blockSize);
    }

    /** download: a worker's attempt at an item of the queue. */
    method Attempt(x: Item) returns (ok: bool)
      requires x in queue && x.block in pool.blocks && Placed(pool.blocks[x.block], file, blockSize)
      modifies this`queue, pool`blocks
      ensures Attempted(old(St()), St(), x, ok, file, blockSize)
    {
      var b := pool.blocks[x.block];
      var n := Min(blockSize, |file| - b.offset);
      ok := *;
      var data: Bytes :| |data| == blockSize by { assert |Zeros(blockSize)| == blockSize; }
      if ok { data := file[b.offset..b.offset + n] + b.data[n..]; }
      b := b.(data := data, endIndex := b.offset);
      queue := queue - {x};
      if x.failCnt > MAX_FAIL_CNT {
        b := b.(failed := true, state := Ready);
      } else if !ok {
        queue := queue + {Again(x)};
      } else {
        b := b.(endIndex := b.offset + n, state := Ready);
      }
      pool.blocks := pool.blocks[x.block := b];
    }

    method Download(x: Item) returns (ok: bool)
      requires Valid() && x in queue
      modifies this`queue, this`given, pool`blocks
      ensures Valid() && Attempted(old(St()), St(), x, ok, file, blockSize) && Progress(old(St()), St())
      ensures Accounted(old(St()), old(given), St(), given) && old(given) <= given
    {
      hide Inv, Attempted, Owned, Theirs, Sound, Progress, Placed, Accounted;
      ghost var w := St();
      ItemFacts(w, x, file, blockSize, Calm(), !GaveUp());
      ItemPlaced(w, x, file, blockSize);
      ghost var index: nat := w.blocks[x.block].id;
      ok := Attempt(x);
      AttemptDooms(w, St(), x, ok, file, blockSize, Calm(), !GaveUp(), given, index);
      ghost var calm, sure := Calm(), !GaveUp();
      if x.failCnt > MAX_FAIL_CNT { given := given + [index]; }
      Weaken(w, file, blockSize, calm, sure, Calm(), !GaveUp());
      AttemptKeeps(w, St(), x, ok, file, blockSize, Calm(), !GaveUp());
      AttemptProgress(w, St(), x, ok, file, blockSize, Calm(), !GaveUp());
      PoolKept(w, St(), pool.free, pool.nextRef, pool.maxBlocks, blockSize, others);
    }

    /** Any number of attempts by the workers at any items. */
    method Workers()
      requires Valid()
      modifies this`queue, this`given, pool`blocks
      ensures Valid() && Progress(old(St()), St()) && Accounted(old(St()), old(given), St(), given)
      ensures old(given) <= given
    {
      hide Inv, Attempted, Owned, Theirs, Sound, Progress, Accounted;
      ProgressNone(St());
      AccountedNow(St(), given);
      var n: nat :| true;
      while n > 0 && queue != {}
        invariant Valid() && Progress(old(St()), St()) && Accounted(old(St()), old(given), St(), given)
        invariant old(given) <= given
        decreases n
      {
        var x :| x in queue;
        ghost var w, before := St(), given;
        var ok := Download(x);
        ProgressMore(old(St()), w, St());
        AccountedMore(old(St()), old(given), w, before, St(), given);
        n := n - 1;
      }
    }

    /** Receives from the channel of a block under download. */
    method Await(r: Ref)
      requires Valid() && r in cooking
      modifies this`queue, this`given, pool`blocks
      ensures Valid() && Progress(old(St()), St()) && Accounted(old(St()), old(given), St(), given)
      ensures old(given) <= given
      ensures r in pool.blocks && pool.blocks[r].state == Ready && InFlight(St(), r, file, blockSize, !GaveUp())
    {
      hide Inv, Attempted, Owned, Theirs, Sound, Progress, InFlight, Accounted;
      Workers();
      InFlightFacts(St(), r, file, blockSize, Calm(), !GaveUp());
      if pool.blocks[r].state == Ready { return; }
      var x :| x in queue && x.block == r;
      while pool.blocks[r].state == Pending
        invariant Valid() && Progress(old(St()), St()) && Accounted(old(St()), old(given), St(), given)
        invariant r in pool.blocks && pool.blocks[r].state != Closed && InFlight(St(), r, file, blockSize, !GaveUp())
        invariant old(given) <= given
        invariant x.block == r && (pool.blocks[r].state == Pending ==> x in queue && x.failCnt <= MAX_FAIL_CNT + 1)
        decreases MAX_FAIL_CNT + 1 - x.failCnt
      {
        ghost var w, before := St(), given;
        var ok := Download(x);
        ProgressMore(old(St()), w, St());
        AccountedMore(old(St()), old(given), w, before, St(), given);
        InFlightFacts(St(), r, file, blockSize, Calm(), !GaveUp());
        AttemptOutcome(w, St(), x, ok, file, blockSize);
        x := Again(x);
      }
    }

    /** A block from the pool goes to the front of the free list of the handle. */
    method TakeBlock(must: bool) returns (ok: bool)
      requires Valid()
      modifies this`cooked, pool
      ensures Valid()
      ensures (if ok then |cooked| == |old(cooked)| + 1 && cooked[1..] == old(cooked) else cooked == old(cooked))
      ensures if ok then Pushed(old(St()), St(), cooked[0]) else St() == old(St())
      ensures must && !ok ==> old(pool.free) == []
      ensures !must ==> ok == (old(pool.free) != []) && |pool.free| == |old(pool.free)| - (if ok then 1 else 0)
      ensures forall r :: r in cooking && r in old(pool.blocks) ==>
        r in pool.blocks && pool.blocks[r] == old(pool.blocks[r])
    {
      hide Inv, Owned, Theirs, Sound, Taken;
      ghost var w, free := St(), pool.free;
      var r;
      if must { ok, r := pool.MustGet(); } else { ok, r := pool.TryGet(); }
      if !ok { return; }
      TakenOwned(w.blocks, pool.blocks, free, pool.free, cooked, cooking, others.Keys, r);
      cooked := [r] + cooked;
      TakenPushed(w, St(), free, pool.free, r, others);
      PushKeeps(w, St(), r, file, blockSize, Calm(), !GaveUp());
    }

    method Lineup(index: nat)
      requires cooked != [] && cooked[0] in pool.blocks && pool.blocks[cooked[0]].id >= -1
      modifies this`nodes, this`cooked, this`cooking, this`queue, this`next, pool`blocks
      ensures old(cooked) != [] && old(cooked[0]) in old(pool.blocks) && St() == Refreshed(old(St()), index, blockSize)
      ensures next == index + 1
    {
      var r := cooked[0];
      var b := pool.blocks[r];
      if b.id != -1 { nodes := nodes - {b.id}; }
      nodes := nodes[index := r];
      next := index + 1;
      pool.blocks := pool.blocks[r := ReUsed(b).(id := index, offset := index * blockSize)];
      cooked, cooking := cooked[1..], [r] + cooking;
      queue := queue + {Item(r, 0)};
    }

    /** The front block of the free list becomes block `index` and goes to the workers. */
    method Refresh(index: nat)
      requires Valid() && cooked != [] && index !in nodes && index * blockSize < |file|
      modifies this`nodes, this`cooked, this`cooking, this`queue, this`next, pool`blocks
      ensures Valid() && index in nodes && nodes[index] in cooking && next == index + 1
      ensures nodes.Keys <= old(nodes.Keys) + {index}
      ensures cooked == old(cooked)[1..] && cooking == [old(cooked)[0]] + old(cooking)
      ensures |cooked| == |old(cooked)| - 1 && |cooking| == |old(cooking)| + 1 && Lined(old(St()), St())
    {
      hide Inv, Owned, Theirs, Sound, Unrepeated, Lined;
      ghost var w := St();
      FreeFront(w, pool.free, pool.nextRef, pool.maxBlocks, file, blockSize, Calm(), !GaveUp());
      RefreshKeeps(w, index, file, blockSize, Calm(), !GaveUp());
      OwnedMoved(pool.blocks.Keys, pool.free, cooked, cooking, others.Keys);
      TheirsKept(pool.blocks,
                 pool.blocks[cooked[0] := ReUsed(pool.blocks[cooked[0]]).(id := index, offset := index * blockSize)],
                 pool.free, cooked, cooking, others, cooked[0]);
      SoundUpdated(pool.free, pool.blocks, cooked[0],
                   ReUsed(pool.blocks[cooked[0]]).(id := index, offset := index * blockSize),
                   pool.nextRef, pool.maxBlocks, blockSize);
      RefreshLined(w, index, file, blockSize, Calm(), !GaveUp());
      Lineup(index);
    }

    /** refreshBlock: a block that is wanted now gets memory even when none is free. */
    method RefreshBlock(index: nat, ahead: bool) returns (res: Result)
      requires Valid() && index !in nodes
      modifies this`nodes, this`cooked, this`cooking, this`queue, this`next, this`starved, pool
      ensures Valid() && Lined(old(St()), St()) && (res == EndOfFile <==> index * blockSize >= |file|)
      ensures res == NoMemory ==> old(cooked) == [] && !ahead && old(pool.free) == []
      ensures starved == old(starved) + (if res == NoMemory then 1 else 0)
      ensures nodes.Keys <= old(nodes.Keys) + {index}
      ensures res == Done && old(cooked) != [] ==> Passed(old(cooked), old(cooking), cooked, cooking)
      ensures if res == Done && (!ahead || old(cooked) != [])
              then && index in nodes && nodes[index] in cooking && |cooking| == |old(cooking)| + 1
                   && |cooked| == (if old(cooked) == [] then 0 else |old(cooked)| - 1)
              else cooked == old(cooked) && cooking == old(cooking) && nodes == old(nodes)
    {
      hide Inv, Owned, Theirs, Sound, Lined;
      LinedNone(St());
      if index * blockSize >= |file| { return EndOfFile; }
      if cooked == [] && !ahead {
        ghost var w := St();
        var ok := TakeBlock(true);
        TakenLined(w, St());
        if !ok {
          starved := starved + 1;
          return NoMemory;
        }
      }
      if cooked != [] {
        ghost var w := St();
        Refresh(index);
        LinedMore(old(St()), w, St());
      }
      return Done;
    }

    /** RemoveValue, ReUse and Release of a block that is on the lists no longer. */
    method Discard(r: Ref, ghost w: State)
      requires pool.Valid() && pool.blockSize == blockSize > 0 && w == St().(cooked := w.cooked, cooking := w.cooking)
      requires Owned(w.blocks.Keys, pool.free, w.cooked, w.cooking, others.Keys) && Theirs(w.blocks, others)
      requires r in w.cooked || r in w.cooking
      requires Inv(w, file, blockSize, Calm(), !GaveUp()) && r !in QueueBlocks(queue) && Unrepeated(cooked)
      requires Unrepeated(cooking)
      requires (forall q :: q in cooked <==> q in w.cooked && q != r)
      requires (forall q :: q in cooking <==> q in w.cooking && q != r)
      modifies this`nodes, pool`free, pool`blocks
      ensures Valid() && Dropped(w, St(), r) && |pool.free| >= |old(pool.free)|
    {
      hide Inv, Owned, Sound, Unrepeated, QueueBlocks, Dropped, Theirs;
      OwnedLive(w.blocks.Keys, pool.free, w.cooked, w.cooking, others.Keys, r);
      if pool.blocks[r].id >= 0 { nodes := nodes - {pool.blocks[r].id}; }
      pool.GiveBack(r, w.cooked, w.cooking, cooked, cooking, others);
      LetGo(w, St(), r);
      DropKeeps(w, St(), r, file, blockSize, Calm(), !GaveUp());
    }

    /** Opens block i of the download list, whose download has ended, to all readers. */
    method Serve(i: nat)
      requires Valid() && i < |cooking| && cooking[i] in pool.blocks && pool.blocks[cooking[i]].state == Ready
      requires Calm() ==> !pool.blocks[cooking[i]].failed
      modifies this`cooked, this`cooking, pool`blocks
      ensures Valid() && old(cooking[i]) in old(pool.blocks) && St() == Served(old(St()), i)
    {
      hide Inv, Owned, Theirs, Sound;
      ghost var w := St();
      ServeKeeps(w, i, file, blockSize, Calm(), !GaveUp());
      ServeOwned(w, i, pool.free, file, blockSize, Calm(), !GaveUp(), others.Keys);
      var r := cooking[i];
      TheirsKept(pool.blocks, pool.blocks[r := pool.blocks[r].(state := Closed)], pool.free, cooked, cooking, others,
                 r);
      SoundUpdated(pool.free, pool.blocks, r, pool.blocks[r].(state := Closed), pool.nextRef, pool.maxBlocks,
                   blockSize);
      cooking := cooking[..i] + cooking[i + 1..];
      cooked := cooked + [r];
      pool.blocks := pool.blocks[r := pool.blocks[r].(state := Closed)];
    }

    /** Random reads: opens the blocks that are there and keeps the others under download. The blocks this spoils are
        exactly those that have been given up. */
    method MoveReady()
      requires Valid() && optCnt > MIN_RANDREAD
      modifies this`cooked, this`cooking, pool`blocks
      ensures Valid() && |cooked| + |cooking| == |old(cooked)| + |old(cooking)| && |cooked| >= |old(cooked)|
      ensures forall i :: 0 <= i < |cooking| ==> cooking[i] in pool.blocks && pool.blocks[cooking[i]].state == Pending
      ensures forall k :: Spoilt(St(), k) <==> old(Spoilt(St(), k)) || old(Doomed(St(), k))
    {
      hide Inv, Owned, Theirs, Sound, Spoilt, Doomed, Sorted, PendingFrom;
      SortedNone(St());
      AllPending(St());
      ghost var w0 := St();
      var n := |cooking|;
      for i := 0 to n
        invariant Valid() && |cooked| + |cooking| == |old(cooked)| + |old(cooking)| && |cooked| >= |old(cooked)|
        invariant |cooking| >= n - i && cooking[..n - i] == w0.cooking[i..]
        invariant PendingFrom(St(), n - i) && Sorted(w0, St(), i)
      {
        ghost var w := St();
        var r := cooking[0];
        assert r == w0.cooking[i];
        InFlightFacts(w, r, file, blockSize, Calm(), !GaveUp());
        SortedNext(w0, w, i, file, blockSize, Calm(), !GaveUp());
        NextFront(w.cooking, n - i);
        PendingNext(w, n - i);
        assert w0.cooking[i..][1..] == w0.cooking[i + 1..];
        if pool.blocks[r].state == Ready {
          Serve(0);
        } else {
          RotateKeeps(St(), pool.free, file, blockSize, Calm(), !GaveUp(), others.Keys);
          cooking := cooking[1..] + [r];
        }
      }
      SortedAll(w0, St(), n);
      AllPending(St());
    }

    /** Random reads: lets go of all but a few of the blocks not under download. */
    method EvictExcess()
      requires Valid()
      modifies this`nodes, this`cooked, pool`free, pool`blocks
      ensures Valid() && nodes.Keys <= old(nodes.Keys) && |cooked| == Min(|old(cooked)|, MIN_PREFETCH)
      ensures NoMoreSpoilt(old(St()), St()) && NoMoreDoomed(old(St()), St()) && |pool.free| >= |old(pool.free)|
      ensures cooked == old(cooked)[|old(cooked)| - |cooked|..]
    {
      hide Inv, Owned, Theirs, Sound, Dropped, NoMoreSpoilt, NoMoreDoomed;
      NoMoreNone(St());
      DoomsNone(St());
      while |cooked| > MIN_PREFETCH
        invariant Valid() && nodes.Keys <= old(nodes.Keys) && NoMoreSpoilt(old(St()), St())
        invariant NoMoreDoomed(old(St()), St()) && |pool.free| >= |old(pool.free)|
        invariant Min(|old(cooked)|, MIN_PREFETCH) <= |cooked| <= |old(cooked)|
        invariant cooked == old(cooked)[|old(cooked)| - |cooked|..]
        decreases |cooked|
      {
        ghost var w := St();
        FrontIdle(w, file, blockSize, Calm(), !GaveUp());
        var r := cooked[0];
        cooked := cooked[1..];
        Discard(r, w);
        DroppedNodes(w, St(), r);
        DroppedSpoils(w, St(), r, file, blockSize, Calm(), !GaveUp());
        NoMoreMore(old(St()), w, St());
        NotDoomedMore(old(St()), w, St());
      }
    }

    /** Sequential reads: more blocks for this handle while it has fewer than it may prefetch. */
    method TakeMore() returns (cnt: nat)
      requires Valid()
      modifies this`cooked, pool
      ensures Valid() && Lined(old(St()), St()) && |cooked| == |old(cooked)| + cnt
      ensures cnt == Min(MIN_PREFETCH, Min(Max(0, prefetch - old(Total())), |old(pool.free)|))
      ensures |pool.free| == |old(pool.free)| - cnt
    {
      hide Inv, Owned, Theirs, Sound, Lined;
      LinedNone(St());
      cnt := 0;
      var current := |cooked| + |cooking|;
      while current < prefetch && cnt < MIN_PREFETCH
        invariant Valid() && cnt <= MIN_PREFETCH && Lined(old(St()), St()) && |cooked| == |old(cooked)| + cnt
        invariant current >= old(Total()) && |pool.free| == |old(pool.free)| - cnt
        invariant cnt == Min(current - old(Total()), |old(pool.free)|)
        invariant current <= Max(old(Total()), prefetch)
        decreases prefetch - current
      {
        ghost var w := St();
        var ok := TakeBlock(false);
        TakenLined(w, St());
        LinedMore(old(St()), w, St());
        if ok { cnt := cnt + 1; }
        current := current + 1;
      }
    }

    /** How many blocks a sequential reader takes from the pool and lines up at a time. */
    ghost function Ahead(held: nat, free: nat): nat
    {
      Min(MIN_PREFETCH, Min(Max(0, prefetch - held), free))
    }

    /** startPrefetch: brings block `index` under download, and on sequential reads some after it. */
    method StartPrefetch(index: nat, ahead: bool) returns (res: Result)
      requires Valid() && (!ahead ==> index !in nodes && index * blockSize < |file|)
      requires (ahead ==> optCnt <= MIN_RANDREAD)
      modifies this`nodes, this`cooked, this`cooking, this`queue, this`next, this`starved, pool
      ensures Valid() && (ahead ==> Lined(old(St()), St()))
      ensures !ahead && res != NoMemory ==> index in nodes && nodes[index] in cooking
      ensures ahead && old(cooked) != [] && index * blockSize < |file| ==> index in nodes
      ensures ahead ==> Total() <= Max(old(Total()), prefetch)
      ensures !ahead ==> Total() <= Max(old(Total()) + (if old(cooked) == [] then 1 else 0), prefetch)
      ensures res == NoMemory ==> old(cooked) == [] && Total() <= old(Total())
      ensures res == NoMemory ==> old(pool.free) == [] && !ahead
      ensures starved == old(starved) + (if res == NoMemory then 1 else 0) && NoMoreDoomed(old(St()), St())
      ensures optCnt <= MIN_RANDREAD && Unmapped(old(nodes), index, index + MIN_PREFETCH) ==>
        Fetching(St(), index, index + Ahead(old(Total()), |old(pool.free)|), file, blockSize)
      ensures forall k :: Spoilt(St(), k) ==>
        || old(Spoilt(St(), k))
        || (optCnt > MIN_RANDREAD && old(Total()) > MIN_PREFETCH && old(Doomed(St(), k)))
    {
      hide Inv, Owned, Theirs, Sound, Lined, Spoilt, Doomed, NoMoreDoomed, Fetching, Unmapped;
      LinedNone(St());
      DoomsNone(St());
      NoneFetching(St(), index, file, blockSize);
      var cnt := 1;
      if optCnt > MIN_RANDREAD {
        if |cooked| + |cooking| > MIN_PREFETCH {
          MoveReady();
          ghost var v := St();
          PendingOnly(old(St()), v);
          EvictExcess();
          NotDoomedMore(old(St()), v, St());
        }
      } else {
        cnt := TakeMore();
        UnmappedLess(nodes, index, index + MIN_PREFETCH, index + cnt);
        LinedSpoils(old(St()), St());
        if cnt == 0 { cnt := 1; }
      }
      ghost var w := St();
      res := Fetch(index, ahead, cnt);
      NoneFetching(St(), index, file, blockSize);
      LinedSpoils(w, St());
      NotDoomedMore(old(St()), w, St());
      if ahead { LinedMore(old(St()), w, St()); }
    }

    /** The loop of startPrefetch. */
    method Fetch(index: nat, ahead: bool, cnt: nat) returns (res: Result)
      requires Valid() && cnt > 0 && (!ahead ==> index !in nodes && index * blockSize < |file|)
      modifies this`nodes, this`cooked, this`cooking, this`queue, this`next, this`starved, pool
      ensures Valid() && Lined(old(St()), St())
      ensures !ahead && res != NoMemory ==> index in nodes && nodes[index] in cooking
      ensures index !in old(nodes) && old(cooked) != [] && index * blockSize < |file| ==>
        index in nodes && nodes[index] in cooking
      ensures index in old(nodes) ==> index in nodes
      ensures cnt <= |old(cooked)| && Unmapped(old(nodes), index, index + cnt) ==>
        Fetching(St(), index, index + cnt, file, blockSize)
      ensures Total() <= old(Total()) + (if old(cooked) == [] && !ahead then 1 else 0)
      ensures res == NoMemory ==> old(cooked) == [] && !ahead && Total() == old(Total()) && old(pool.free) == []
      ensures starved == old(starved) + (if res == NoMemory then 1 else 0)
    {
      hide Inv, Owned, Theirs, Sound, Lined, Fetching, Passed, OnlyBelow;
      LinedNone(St());
      NoneBelow(nodes, index);
      ghost var free := cnt <= |cooked| && Unmapped(nodes, index, index + cnt);
      NoneFetching(St(), index, file, blockSize);
      var k := index;
      for i := 0 to cnt
        invariant Valid() && Lined(old(St()), St()) && k >= index
        invariant i == 0 ==> k == index && unchanged(`nodes) && unchanged(`cooked) && unchanged(`cooking)
        invariant (i == 0 ==> pool.free == old(pool.free)) && starved == old(starved)
        invariant Total() <= old(Total()) + (if old(cooked) == [] && !ahead then 1 else 0)
        invariant i > 0 && (!ahead || (index !in old(nodes) && old(cooked) != [])) ==>
          index in nodes && nodes[index] in cooking
        invariant index in old(nodes) ==> k == index && index in nodes
        invariant free ==> k == index + i && |cooked| == |old(cooked)| - i && Fetching(St(), index, k, file, blockSize)
        invariant free ==> OnlyBelow(old(nodes), nodes, k)
      {
        if free { NotBelow(old(nodes), nodes, k); }
        if k !in nodes {
          ghost var w := St();
          res := RefreshBlock(k, ahead || i > 0);
          LinedMore(old(St()), w, St());
          LinedAt(w, St(), index, file, blockSize, Calm(), !GaveUp());
          if free {
            FetchingMore(w, St(), index, k, index + cnt, file, blockSize, Calm(), !GaveUp());
            BelowMore(old(nodes), w.nodes, nodes, k);
          }
          if res != Done { return; }
          k := k + 1;
        }
      }
      return Done;
    }

    /** Between operations a handle holds at most prefetch + 1 blocks, and as many only when one of
        them is free to be used again, or is all there is to the file. */
    ghost predicate Bounded()
      reads this
    {
      Total() <= prefetch + 1 && (Total() == prefetch + 1 && cooked == [] ==> |file| < blockSize && 0 in nodes)
    }

    /** The download of block `index` was given up since, or had been and nobody had looked; or the pool had no block
        left and could not map one. */
    twostate predicate Refused(index: nat)
      reads this
    {
      old(Doomed(St(), index)) || index in given[Min(|old(given)|, |given|)..] || starved > old(starved)
    }

    /** getBlock: the block that holds the byte at `offset`, downloaded. It has been given up exactly when it was
        spoilt before the call; and the call spoils a block only when it misses, reads are random and more than
        a few blocks are held. It fails only when the download of this block was given up, in the call or before with
        nobody having looked, or when there is no memory for it. */
    method GetBlock(offset: nat) returns (ok: bool, r: Ref)
      requires Valid() && Bounded() && offset < |file|
      modifies this, pool
      ensures Valid() && Bounded() && others == old(others) && old(given) <= given && optCnt >= old(optCnt)
      ensures ok ==> r in pool.blocks && Holds(pool.blocks[r], offset, file, blockSize, Calm())
      ensures ok ==> (pool.blocks[r].failed <==> old(Spoilt(St(), BlockIndex(offset, blockSize))))
      ensures old(Spoilt(St(), BlockIndex(offset, blockSize))) ==>
        ok && pool.blocks[r] == old(pool.blocks[nodes[BlockIndex(offset, blockSize)]])
      ensures BlockIndex(offset, blockSize) in old(nodes) || optCnt <= MIN_RANDREAD || old(Total()) <= MIN_PREFETCH ==>
        NoMoreSpoilt(old(St()), St())
      ensures !ok ==> Refused(BlockIndex(offset, blockSize))
      ensures Accounted(old(St()), old(given), St(), given)
      ensures starved >= old(starved) && (starved > old(starved) ==> old(pool.free) == [])
    {
      hide Inv, Owned, Theirs, Sound, Spoilt, NoMoreSpoilt, Holds, BlockIndex, Accounted, Doomed;
      var index := BlockIndex(offset, blockSize);
      BlockOf(offset, blockSize);
      ok, r := BlockAt(offset, index);
    }

    /** The same, with the index of the block. */
    method BlockAt(offset: nat, index: nat) returns (ok: bool, r: Ref)
      requires Valid() && Bounded() && offset < |file|
      requires index * blockSize <= offset < index * blockSize + blockSize
      modifies this, pool
      ensures Valid() && Bounded() && others == old(others) && old(given) <= given && optCnt >= old(optCnt)
      ensures ok ==> r in pool.blocks && Holds(pool.blocks[r], offset, file, blockSize, Calm())
      ensures ok ==> (pool.blocks[r].failed <==> old(Spoilt(St(), index)))
      ensures old(Spoilt(St(), index)) ==>
        ok && r == old(nodes[index]) && pool.blocks[r] == old(pool.blocks[nodes[index]])
      ensures index in old(nodes) || optCnt <= MIN_RANDREAD || old(Total()) <= MIN_PREFETCH ==>
        NoMoreSpoilt(old(St()), St())
      ensures !ok ==> Refused(index)
      ensures Accounted(old(St()), old(given), St(), given)
      ensures starved >= old(starved) && (starved > old(starved) ==> old(pool.free) == [])
    {
      hide Inv, Owned, Theirs, Sound, Progress, Spoilt, NoMoreSpoilt, Holds, Accounted, Doomed;
      ghost var w := St();
      ghost var calm, sure := Calm(), !GaveUp();
      NotThere(w, index);
      Workers();
      ProgressSpoils(w, St(), file, blockSize, calm, sure);
      ProgressLeaves(w, St(), index, file, blockSize, calm, sure);
      AwaitSpoils(w, St(), file, blockSize, calm, sure);
      ProgressPlaces(w, St());
      ghost var v, given1 := St(), given;
      if index !in nodes {
        ok, r := Miss(offset, index);
      } else {
        r := nodes[index];
        ok := Hit(offset, index, r);
      }
      if NoMoreSpoilt(v, St()) { NoMoreMore(w, v, St()); }
      AccountedMore(w, old(given), v, given1, St(), given);
      GivenSince(w, old(given), v, given1, St(), given, index);
    }

    /** getBlock of a block that is there, open or under download. */
    method Hit(offset: nat, index: nat, r: Ref) returns (ok: bool)
      requires Valid() && Bounded() && offset < |file| && index in nodes && nodes[index] == r
      requires index * blockSize <= offset < index * blockSize + blockSize
      modifies this`nodes, this`cooked, this`cooking, this`queue, this`next, this`given, this`starved, pool
      ensures Valid() && Bounded() && Accounted(old(St()), old(given), St(), given) && starved == old(starved)
      ensures !ok ==> old(Doomed(St(), index)) || index in given[|old(given)|..]
      ensures ok ==> r in pool.blocks && Holds(pool.blocks[r], offset, file, blockSize, Calm())
      ensures ok ==> (pool.blocks[r].failed <==> old(Spoilt(St(), index)))
      ensures old(Spoilt(St(), index)) ==> ok && St() == old(St())
      ensures NoMoreSpoilt(old(St()), St())
    {
      hide Inv, Owned, Theirs, Sound, Spoilt, NoMoreSpoilt, Accounted, Doomed;
      NoMoreNone(St());
      AccountedNow(St(), given);
      NodeFacts(St(), index, file, blockSize, Calm(), !GaveUp());
      SpoiltFacts(St(), index, file, blockSize, Calm(), !GaveUp());
      if r in cooked {
        ok := true;
      } else {
        ok := FirstRead(r, index);
      }
    }

    /** getBlock of a block that is not there: it is brought under download and waited for. */
    method Miss(offset: nat, index: nat) returns (ok: bool, r: Ref)
      requires Valid() && Bounded() && offset < |file| && index !in nodes
      requires index * blockSize <= offset < index * blockSize + blockSize
      modifies this, pool
      ensures Valid() && Bounded() && others == old(others) && old(given) <= given && optCnt >= old(optCnt)
      ensures ok ==> r in pool.blocks && Holds(pool.blocks[r], offset, file, blockSize, Calm())
      ensures ok ==> !pool.blocks[r].failed
      ensures optCnt <= MIN_RANDREAD || old(Total()) <= MIN_PREFETCH ==> NoMoreSpoilt(old(St()), St())
      ensures Accounted(old(St()), old(given), St(), given)
      ensures !ok ==> starved > old(starved) || index in given[|old(given)|..]
      ensures starved >= old(starved) && (starved > old(starved) ==> old(pool.free) == [])
    {
      hide Inv, Owned, Theirs, Sound, Lined, Progress, Good, Spoilt, Doomed, NoMoreDoomed, Accounted, Fetching;
      hide Unmapped;
      NotThere(St(), index);
      if !(prefetch > 0 && next == 0) {
        ghost var calm := Calm();
        optCnt := optCnt + 1;
        Weaken(St(), file, blockSize, calm, !GaveUp(), Calm(), !GaveUp());
      }
      var res := StartPrefetch(index, false);
      ghost var w := St();
      AccountedSame(old(St()), w, given);
      if res == NoMemory { return false, 0; }
      NotDoomedYet(old(St()), w, index);
      r := nodes[index];
      NodeFacts(w, index, file, blockSize, Calm(), !GaveUp());
      ok := FirstRead(r, index);
      AccountedMore(old(St()), old(given), w, old(given), St(), given);
    }

    /** getBlock of a block under download. */
    method FirstRead(r: Ref, index: nat) returns (ok: bool)
      requires Valid() && r in cooking && index in nodes && nodes[index] == r && Total() <= prefetch + 1
      modifies this`nodes, this`cooked, this`cooking, this`queue, this`next, this`given, this`starved, pool
      ensures Valid() && Bounded() && Accounted(old(St()), old(given), St(), given) && starved == old(starved)
      ensures !ok ==> old(Doomed(St(), index)) || index in given[|old(given)|..]
      ensures ok ==> r in pool.blocks && pool.blocks[r].id == index && !pool.blocks[r].failed
      ensures ok ==> Placed(pool.blocks[r], file, blockSize) && Good(pool.blocks[r], file, blockSize)
      ensures NoMoreSpoilt(old(St()), St())
    {
      hide Inv, Owned, Theirs, Sound, Progress, Spoilt, NoMoreSpoilt, Doomed, NoMoreDoomed, Accounted;
      ghost var calm, sure := Calm(), !GaveUp();
      Await(r);
      ghost var w := St();
      AwaitSpoils(old(St()), w, file, blockSize, calm, sure);
      NodeFacts(w, index, file, blockSize, Calm(), !GaveUp());
      ok := !pool.blocks[r].failed;
      if ok {
        OpenRead(r);
      } else {
        DoomedNow(old(St()), old(given), w, given, index);
        LetGoFailed(r);
      }
      NoMoreMore(old(St()), w, St());
      AccountedSame(w, St(), given);
      AccountedMore(old(St()), old(given), w, given, St(), given);
    }

    /** The first reader finds that the download was given up: the block goes, so that the next read tries again. */
    method LetGoFailed(r: Ref)
      requires Valid() && r in cooking && r in pool.blocks && pool.blocks[r].state == Ready && Total() <= prefetch + 1
      modifies this`nodes, this`cooking, pool`free, pool`blocks
      ensures Valid() && Bounded() && NoMoreSpoilt(old(St()), St()) && NoMoreDoomed(old(St()), St())
      ensures old(pool.blocks[r]).id >= 0 ==> old(pool.blocks[r]).id !in nodes
    {
      hide Inv, Owned, Theirs, Sound, Spoilt, NoMoreSpoilt, NoMoreDoomed, Dropped;
      ghost var w := St();
      var i := IndexOf(cooking, r);
      InFlightGone(w, i, file, blockSize, Calm(), !GaveUp());
      cooking := cooking[..i] + cooking[i + 1..];
      Discard(r, w);
      DroppedSpoils(w, St(), r, file, blockSize, Calm(), !GaveUp());
      DroppedNodes(w, St(), r);
    }

    /** The first reader of a good block prefetches the next blocks and opens this one. */
    method OpenRead(r: Ref)
      requires Valid() && r in cooking && r in pool.blocks && pool.blocks[r].state == Ready && !pool.blocks[r].failed
      requires Total() <= prefetch + 1
      modifies this`nodes, this`cooked, this`cooking, this`queue, this`next, this`starved, pool
      ensures Valid() && Bounded() && NoMoreSpoilt(old(St()), St()) && NoMoreDoomed(old(St()), St())
      ensures starved == old(starved) && r in pool.blocks && pool.blocks[r] == old(pool.blocks[r]).(state := Closed)
      ensures optCnt <= MIN_RANDREAD && old(next) * blockSize < |file| && old(cooked) != [] ==> old(next) in nodes
    {
      hide Inv, Owned, Theirs, Sound, Lined, Spoilt, NoMoreSpoilt, Doomed, NoMoreDoomed, Fetching, Unmapped;
      ghost var w := St();
      NoMoreNone(w);
      DoomsNone(w);
      if optCnt <= MIN_RANDREAD && next * blockSize < |file| {
        var res := StartPrefetch(next, true);
        LinedBlock(w, St(), r);
        LinedSpoils(w, St());
      }
      ghost var v := St();
      var i := IndexOf(cooking, r);
      ServeSpoilsNone(v, i, file, blockSize, Calm(), !GaveUp());
      ServeDooms(v, i, file, blockSize, Calm(), !GaveUp());
      Serve(i);
      NoMoreMore(w, v, St());
      NotDoomedMore(w, v, St());
    }

    /** ReadInBuffer: every byte it returns for a position in the file is the byte of the blob there,
        whatever the workers do and in whatever order, unless it is from a spoilt block. It may return more bytes
        than the file has: a whole block is copied. It stops short only at the end of the file, or at a block whose
        download was given up or for which there is no memory. */
    method ReadInBuffer(offset: nat, length: nat) returns (ok: bool, out: Bytes, ghost spoilt: set<nat>)
      requires Valid() && Bounded()
      modifies this, pool
      ensures Valid() && Bounded() && others == old(others) && old(given) <= given && optCnt >= old(optCnt)
      ensures |out| <= length && (ok ==> |out| == length)
      ensures MatchesBut(out, offset, file, blockSize, spoilt)
      ensures Calm() ==> spoilt == {} && Matches(out, offset, file)
      ensures out != [] ==>
        (BlockIndex(offset, blockSize) in spoilt <==> old(Spoilt(St(), BlockIndex(offset, blockSize))))
      ensures !ok ==> offset + |out| >= |file| || Refused(BlockIndex(offset + |out|, blockSize))
      ensures !GaveUp() && starved == old(starved) ==> Complete(out, offset, length, file)
      ensures starved >= old(starved)
    {
      hide Inv, Owned, Theirs, Sound, Good, Spoilt, Holds, BlockIndex, Doomed, Accounted;
      AccountedNow(St(), given);
      out, spoilt := [], {};
      ghost var first := BlockIndex(offset, blockSize);
      ok := offset < |file|;
      if !ok { return; }
      while |out| < length
        invariant Valid() && Bounded() && others == old(others) && old(given) <= given && optCnt >= old(optCnt)
        invariant |out| <= length && (out == [] ==> spoilt == {} && St() == old(St()))
        invariant Accounted(old(St()), old(given), St(), given) && starved >= old(starved)
        invariant MatchesBut(out, offset, file, blockSize, spoilt) && (Calm() ==> spoilt == {})
        invariant forall k :: k in spoilt ==> k * blockSize < offset + |out|
        invariant out != [] && |out| < length ==> first * blockSize + blockSize <= offset + |out|
        invariant out != [] ==> (first in spoilt <==> old(Spoilt(St(), first)))
      {
        var at := offset + |out|;
        ok := at < |file|;
        if !ok { return; }
        var r;
        ghost var w, before, index := St(), given, BlockIndex(at, blockSize);
        if !GaveUp() { NoneDoomed(w, index, file, blockSize, Calm()); }
        ok, r := GetBlock(at);
        GivenSince(old(St()), old(given), w, before, St(), given, index);
        AccountedMore(old(St()), old(given), w, before, St(), given);
        if !ok { return; }
        var b := pool.blocks[r];
        HoldsPlace(b, at, file, blockSize, Calm());
        InBlock(b.id, at, blockSize);
        var n := Min(length - |out|, |b.data| - (at - b.offset));
        CopyMatches(out, offset, b, at, n, file, blockSize, Calm(), spoilt);
        if b.failed { spoilt := spoilt + {b.id}; }
        out := out + b.data[at - b.offset..at - b.offset + n];
      }
      MatchesAll(out, offset, file, blockSize, spoilt);
    }

    /** Any sequence of reads, with the workers at work before, during and after each of them. */
    method Session(asked: seq<(nat, nat)>) returns (outs: seq<Bytes>, ghost spoilt: seq<set<nat>>)
      requires Valid() && Bounded()
      modifies this, pool
      ensures Valid() && Bounded() && |outs| == |asked| == |spoilt|
      ensures forall i :: 0 <= i < |asked| ==> MatchesBut(outs[i], asked[i].0, file, blockSize, spoilt[i])
      ensures Calm() ==> forall i :: 0 <= i < |asked| ==> spoilt[i] == {} && Matches(outs[i], asked[i].0, file)
      ensures !GaveUp() && starved == old(starved) ==>
        forall i :: 0 <= i < |asked| ==> Complete(outs[i], asked[i].0, asked[i].1, file)
    {
      hide Inv, Owned, Theirs, Sound, Matches, MatchesBut, Progress, Spoilt, Complete, Accounted, Doomed;
      outs, spoilt := [], [];
      for i := 0 to |asked|
        invariant Valid() && Bounded() && |outs| == i == |spoilt|
        invariant forall j :: 0 <= j < i ==> MatchesBut(outs[j], asked[j].0, file, blockSize, spoilt[j])
        invariant Calm() ==> forall j :: 0 <= j < i ==> spoilt[j] == {} && Matches(outs[j], asked[j].0, file)
        invariant starved >= old(starved)
        invariant !GaveUp() && starved == old(starved) ==>
          forall j :: 0 <= j < i ==> Complete(outs[j], asked[j].0, asked[j].1, file)
      {
        Workers();
        ghost var lost;
        var ok, out;
        ok, out, lost := ReadInBuffer(asked[i].0, asked[i].1);
        outs, spoilt := outs + [out], spoilt + [lost];
      }
    }

    /** OpenFile: starts the download of a small file, or of the first blocks if so configured. */
    method OpenFile(prefetchOnOpen: bool)
      requires Valid() && nodes == map[] && cooked == [] && cooking == [] && optCnt == 0
      modifies this`nodes, this`cooked, this`cooking, this`queue, this`next, this`starved, pool
      ensures Valid() && Bounded() && starved >= old(starved)
      ensures |file| > 0 && (|file| < blockSize || (prefetchOnOpen && prefetch > 0)) && starved == old(starved) ==>
        0 in nodes && nodes[0] in cooking
      ensures |file| >= blockSize && prefetchOnOpen ==>
        Fetching(St(), 0, Ahead(0, |old(pool.free)|), file, blockSize)
    {
      hide Inv, Owned, Theirs, Sound, Lined, Spoilt, Doomed, NoMoreDoomed, Fetching;
      NoneFetching(St(), 0, file, blockSize);
      if |file| > 0 {
        if |file| < blockSize {
          var res := RefreshBlock(0, false);
        } else if prefetchOnOpen && prefetch > 0 {
          var res := StartPrefetch(0, false);
        }
      }
    }

    /** CloseFile: once every handle is closed, the pool is full again. */
    method CloseFile()
      requires Valid()
      modifies this`nodes, this`cooked, this`cooking, this`queue, this`given, pool`free, pool`blocks
      ensures Valid() && cooked == [] && cooking == [] && nodes == map[] && others == old(others)
      ensures others == map[] ==> |pool.free| == pool.maxBlocks
      ensures optCnt == old(optCnt) && old(given) <= given && starved == old(starved)
    {
      hide Inv, Sound, Lined, Progress, Dropped, Accounted, Theirs;
      while cooking != []
        invariant Valid() && old(given) <= given
        decreases |cooking|
      {
        var r := cooking[0];
        Await(r);
        ghost var w := St();
        InFlightGone(w, 0, file, blockSize, Calm(), !GaveUp());
        cooking := cooking[1..];
        assert cooking == Without(w.cooking, 0);
        Discard(r, w);
      }
      while cooked != []
        invariant Valid() && cooking == [] && old(given) <= given
        decreases |cooked|
      {
        ghost var w := St();
        FrontIdle(w, file, blockSize, Calm(), !GaveUp());
        var r := cooked[0];
        cooked := cooked[1..];
        Discard(r, w);
      }
      NoNodes(St(), file, blockSize, Calm(), !GaveUp());
      AllFree(pool.free, pool.blocks, pool.nextRef, pool.maxBlocks, blockSize);
    }
  }

  datatype Result = Done | EndOfFile | NoMemory

  /** The cleanup has looked at the first n blocks under download. */
  ghost predicate Sorted(w0: State, w: State, n: nat)
    requires n <= |w0.cooking|
  {
    && w.nodes == w0.nodes
    && (forall r :: r in w0.cooking[n..] && r in w0.blocks ==> r in w.blocks && w.blocks[r] == w0.blocks[r])
    && (forall k :: Spoilt(w, k) <==> Spoilt(w0, k) || (Doomed(w0, k) && w0.nodes[k] in w0.cooking[..n]))
  }

  /** The blocks from position n on are under download. */
  ghost predicate PendingFrom(w: State, n: nat)
  {
    forall j :: n <= j < |w.cooking| ==> w.cooking[j] in w.blocks && w.blocks[w.cooking[j]].state == Pending
  }

  lemma AllPending(w: State)
    ensures PendingFrom(w, |w.cooking|)
    ensures PendingFrom(w, 0) ==>
      forall j :: 0 <= j < |w.cooking| ==> w.cooking[j] in w.blocks && w.blocks[w.cooking[j]].state == Pending
  {
  }

  lemma PendingNext(w: State, n: nat)
    requires 0 < n <= |w.cooking| && w.cooking[0] in w.blocks && PendingFrom(w, n)
    ensures w.blocks[w.cooking[0]].state == Ready ==> PendingFrom(Served(w, 0), n - 1)
    ensures w.blocks[w.cooking[0]].state == Pending ==>
      PendingFrom(w.(cooking := w.cooking[1..] + [w.cooking[0]]), n - 1)
  {
  }

  lemma NextFront(s: seq<Ref>, n: nat)
    requires 0 < n <= |s|
    ensures Without(s, 0)[..n - 1] == s[..n][1..] && (s[1..] + [s[0]])[..n - 1] == s[..n][1..]
  {
  }

  lemma SortedNone(w: State)
    ensures Sorted(w, w, 0)
  {
    assert w.cooking[0..] == w.cooking;
  }

  lemma SortedNext(w0: State, w: State, n: nat, file: Bytes, blockSize: nat, calm: bool, sure: bool)
    requires n < |w0.cooking| && Sorted(w0, w, n)
    requires Inv(w0, file, blockSize, calm, sure) && Inv(w, file, blockSize, calm, sure)
    requires w.cooking != [] && w.cooking[0] == w0.cooking[n] && w.cooking[0] in w.blocks
    ensures w.blocks[w.cooking[0]].state == Ready ==> Sorted(w0, Served(w, 0), n + 1)
    ensures w.blocks[w.cooking[0]].state != Ready ==>
      Sorted(w0, w.(cooking := w.cooking[1..] + [w.cooking[0]]), n + 1)
  {
    var r := w.cooking[0];
    FrontGone(w0.cooking[n..]);
    assert w0.cooking[n..][1..] == w0.cooking[n + 1..] && r in w0.cooking;
    assert forall q :: q in w0.cooking[..n + 1] <==> q in w0.cooking[..n] || q == r;
    hide Loading, Open, QueueOk, Unrepeated;
    if w.blocks[r].state == Ready {
      SortedServed(w0, w, n, file, blockSize, calm, sure);
    } else {
      var w' := w.(cooking := w.cooking[1..] + [r]);
      forall k ensures Spoilt(w', k) <==> Spoilt(w0, k) || (Doomed(w0, k) && w0.nodes[k] in w0.cooking[..n + 1]) {
        assert Spoilt(w', k) <==> Spoilt(w, k);
      }
    }
  }

  lemma SortedServed(w0: State, w: State, n: nat, file: Bytes, blockSize: nat, calm: bool, sure: bool)
    requires n < |w0.cooking| && Sorted(w0, w, n) && Inv(w, file, blockSize, calm, sure)
    requires w.cooking != [] && w.cooking[0] == w0.cooking[n] && w.cooking[0] in w.blocks
    requires w.cooking[0] in w0.blocks && w.cooking[0] !in w0.cooking[n + 1..]
    requires w.blocks[w.cooking[0]].state == Ready
    requires forall q :: q in w0.cooking[..n + 1] <==> q in w0.cooking[..n] || q == w.cooking[0]
    ensures Sorted(w0, Served(w, 0), n + 1)
  {
    var r, w' := w.cooking[0], Served(w, 0);
    assert r == w0.cooking[n..][0] && w.blocks[r] == w0.blocks[r];
    ServeSpoils(w, 0, file, blockSize, calm, sure);
    forall k ensures Spoilt(w', k) <==> Spoilt(w0, k) || (Doomed(w0, k) && w0.nodes[k] in w0.cooking[..n + 1]) {
      assert k in w.nodes && w.nodes[k] == r ==> (Doomed(w, k) <==> Doomed(w0, k));
    }
    forall q | q in w0.cooking[n + 1..] && q in w0.blocks ensures q in w'.blocks && w'.blocks[q] == w0.blocks[q] {
      assert q in w0.cooking[n..];
    }
  }

  lemma SortedAll(w0: State, w: State, n: nat)
    requires n == |w0.cooking| && Sorted(w0, w, n)
    ensures forall k :: Spoilt(w, k) <==> Spoilt(w0, k) || Doomed(w0, k)
  {
    assert w0.cooking[..n] == w0.cooking;
  }

  /** Blocks under download stay under download, and none is spoilt. */
  ghost predicate Lined(w: State, w': State)
  {
    && NoMoreSpoilt(w, w') && NoMoreDoomed(w, w')
    && (forall r :: r in w.cooking && r in w.blocks ==>
          r in w'.cooking && r in w'.blocks && w'.blocks[r] == w.blocks[r])
    && (forall k :: k in w.nodes && w.nodes[k] in w.cooking && w.nodes[k] in w.blocks ==>
          k in w'.nodes && w'.nodes[k] == w.nodes[k])
  }

  lemma LinedNone(w: State)
    ensures Lined(w, w)
  {
  }

  lemma LinedMore(w: State, v: State, u: State)
    requires Lined(w, v) && Lined(v, u)
    ensures Lined(w, u)
  {
  }

  lemma TakenLined(w: State, w': State)
    requires w' == w || (w'.cooked != [] && Pushed(w, w', w'.cooked[0]))
    ensures Lined(w, w')
  {
  }

  /** The front block of one list has gone to the front of the other. */
  predicate Passed(cooked: seq<Ref>, cooking: seq<Ref>, cooked': seq<Ref>, cooking': seq<Ref>)
  {
    cooked != [] && cooked' == cooked[1..] && cooking' == [cooked[0]] + cooking
  }

  /** The blocks of the file from lo to hi, as far as the file goes, are under download. */
  ghost predicate Fetching(w: State, lo: nat, hi: nat, file: Bytes, blockSize: nat)
  {
    forall k :: lo <= k < hi && k * blockSize < |file| ==> k in w.nodes && w.nodes[k] in w.cooking
  }

  ghost predicate Unmapped(nodes: map<nat, Ref>, lo: nat, hi: nat) { forall k :: lo <= k < hi ==> k !in nodes }

  lemma UnmappedLess(nodes: map<nat, Ref>, lo: nat, hi: nat, hi': nat)
    requires hi' <= hi
    ensures Unmapped(nodes, lo, hi) ==> Unmapped(nodes, lo, hi')
  {
  }

  /** What is new on the map is below k. */
  ghost predicate OnlyBelow(was: map<nat, Ref>, now: map<nat, Ref>, k: nat)
  {
    forall j :: j in now ==> j in was || j < k
  }

  lemma NoneBelow(was: map<nat, Ref>, k: nat)
    ensures OnlyBelow(was, was, k)
  {
  }

  lemma NotBelow(was: map<nat, Ref>, now: map<nat, Ref>, k: nat)
    requires OnlyBelow(was, now, k)
    ensures k !in was ==> k !in now
  {
  }

  lemma BelowMore(was: map<nat, Ref>, now: map<nat, Ref>, now': map<nat, Ref>, k: nat)
    requires OnlyBelow(was, now, k) && now'.Keys <= now.Keys + {k}
    ensures OnlyBelow(was, now', k + 1)
  {
  }

  lemma NoneFetching(w: State, lo: nat, file: Bytes, blockSize: nat)
    ensures Fetching(w, lo, lo, file, blockSize)
  {
  }

  lemma FetchingMore(w: State, w': State, lo: nat, k: nat, hi: nat, file: Bytes, blockSize: nat, calm: bool, sure: bool)
    requires Inv(w, file, blockSize, calm, sure) && Lined(w, w') && Fetching(w, lo, k, file, blockSize)
    ensures (k in w'.nodes && w'.nodes[k] in w'.cooking) || k * blockSize >= |file| ==>
      Fetching(w', lo, k + 1, file, blockSize)
    ensures k * blockSize >= |file| ==> Fetching(w', lo, hi, file, blockSize)
  {
    forall j | lo <= j < k && j * blockSize < |file| ensures j in w'.nodes && w'.nodes[j] in w'.cooking {
      LinedAt(w, w', j, file, blockSize, calm, sure);
    }
    if k * blockSize >= |file| {
      forall j | j >= k ensures j * blockSize >= |file| { TimesGrows(k, j, blockSize); }
    }
  }

  lemma LinedAt(w: State, w': State, index: nat, file: Bytes, blockSize: nat, calm: bool, sure: bool)
    requires Inv(w, file, blockSize, calm, sure) && Lined(w, w')
    ensures index in w.nodes && w.nodes[index] in w.cooking ==> index in w'.nodes && w'.nodes[index] in w'.cooking
  {
  }

  /** Block b holds the byte at `offset`, and the right one unless its download was given up. */
  ghost predicate Holds(b: Block, offset: nat, file: Bytes, blockSize: nat, calm: bool)
  {
    && b.offset <= offset < b.offset + blockSize && |b.data| == blockSize && b.id >= 0 && b.offset == b.id * blockSize
    && (calm ==> !b.failed) && (!b.failed ==> Good(b, file, blockSize))
  }

  /** getBlockIndex. */
  function BlockIndex(offset: nat, blockSize: nat): nat { if blockSize == 0 then 0 else offset / blockSize }

  lemma BlockOf(offset: nat, blockSize: nat)
    requires blockSize > 0
    ensures var k := BlockIndex(offset, blockSize); k * blockSize <= offset < k * blockSize + blockSize
  {
  }

  lemma NotThere(w: State, index: nat)
    ensures index !in w.nodes ==> !Spoilt(w, index) && !Doomed(w, index)
  {
  }

  lemma NotDoomedYet(w: State, w': State, index: nat)
    requires NoMoreDoomed(w, w') && !Doomed(w, index)
    ensures !Doomed(w', index)
  {
  }

  lemma DoomedNow(w: State, g: seq<nat>, w': State, g': seq<nat>, index: nat)
    requires Accounted(w, g, w', g') && index in w'.nodes && w'.nodes[index] in w'.cooking
    requires w'.nodes[index] in w'.blocks && w'.blocks[w'.nodes[index]].failed
    requires w'.blocks[w'.nodes[index]].state == Ready
    ensures Doomed(w, index) || index in g'[|g|..]
  {
  }

  lemma GivenSince(w: State, g: seq<nat>, v: State, g': seq<nat>, u: State, g'': seq<nat>, index: nat)
    requires Accounted(w, g, v, g') && Accounted(v, g', u, g'')
    ensures index in g''[|g'|..] || Doomed(v, index) ==> Doomed(w, index) || index in g''[|g|..]
  {
    assert g''[|g|..] == g'[|g|..] + g''[|g'|..];
  }

  /** A block that is not spoilt holds its bytes of the file. */
  lemma SpoiltFacts(w: State, index: nat, file: Bytes, blockSize: nat, calm: bool, sure: bool)
    requires Inv(w, file, blockSize, calm, sure) && index in w.nodes
    ensures var r := w.nodes[index]; r in w.blocks && (Spoilt(w, index) <==> r in w.cooked && w.blocks[r].failed)
  {
  }

  lemma AwaitSpoils(w: State, w': State, file: Bytes, blockSize: nat, calm: bool, sure: bool)
    requires Inv(w, file, blockSize, calm, sure) && Progress(w, w')
    ensures NoMoreSpoilt(w, w')
  {
    ProgressSpoils(w, w', file, blockSize, calm, sure);
  }

  lemma NodeFacts(w: State, index: nat, file: Bytes, blockSize: nat, calm: bool, sure: bool)
    requires Inv(w, file, blockSize, calm, sure) && index in w.nodes
    ensures var r := w.nodes[index]; r in w.blocks && w.blocks[r].id == index && (r in w.cooked || r in w.cooking)
    ensures var r := w.nodes[index]; r in w.cooked ==> Idle(w, r, file, blockSize, calm)
  {
  }

  lemma LinedBlock(w: State, w': State, r: Ref)
    requires Lined(w, w') && r in w.cooking && r in w.blocks
    ensures r in w'.cooking && r in w'.blocks && w'.blocks[r] == w.blocks[r]
  {
  }

  lemma InFlightGone(w: State, i: nat, file: Bytes, blockSize: nat, calm: bool, sure: bool)
    requires Inv(w, file, blockSize, calm, sure) && i < |w.cooking| && w.cooking[i] in w.blocks
    requires w.blocks[w.cooking[i]].state == Ready
    ensures w.cooking[i] !in QueueBlocks(w.queue) && w.cooking[i] !in w.cooked && Unrepeated(w.cooked)
    ensures Unrepeated(Without(w.cooking, i))
    ensures forall q :: q in Without(w.cooking, i) <==> q in w.cooking && q != w.cooking[i]
  {
    WithoutMember(w.cooking, i);
    assert InFlight(w, w.cooking[i], file, blockSize, sure);
  }

  /** Where a block is in a list. */
  method IndexOf(s: seq<Ref>, r: Ref) returns (i: nat)
    requires r in s
    ensures i < |s| && s[i] == r
  {
    i := 0;
    while s[i] != r
      invariant i < |s| && r in s[i..]
      decreases |s| - i
    {
      i := i + 1;
    }
  }

  /** Bytes read from `offset` on agree with the file as far as the file goes. */
  ghost predicate Matches(out: Bytes, offset: nat, file: Bytes)
  {
    forall i :: 0 <= i < |out| && offset + i < |file| ==> out[i] == file[offset + i]
  }

  /** All that was asked for, or all there is. */
  predicate Complete(out: Bytes, offset: nat, length: nat, file: Bytes)
  {
    |out| == length || offset + |out| >= |file|
  }

  /** ... except for the bytes of some blocks. */
  ghost predicate MatchesBut(out: Bytes, offset: nat, file: Bytes, blockSize: nat, spoilt: set<nat>)
  {
    forall i :: 0 <= i < |out| && offset + i < |file| && BlockIndex(offset + i, blockSize) !in spoilt ==>
      out[i] == file[offset + i]
  }

  lemma MatchesAll(out: Bytes, offset: nat, file: Bytes, blockSize: nat, spoilt: set<nat>)
    requires MatchesBut(out, offset, file, blockSize, spoilt)
    ensures spoilt == {} ==> Matches(out, offset, file)
  {
  }

  lemma HoldsPlace(b: Block, offset: nat, file: Bytes, blockSize: nat, calm: bool)
    requires Holds(b, offset, file, blockSize, calm)
    ensures b.offset <= offset < b.offset + blockSize && |b.data| == blockSize && (calm ==> !b.failed)
    ensures b.id >= 0 && b.offset == b.id * blockSize
  {
  }

  lemma CopyMatches(out: Bytes, offset: nat, b: Block, at: nat, n: nat, file: Bytes, blockSize: nat, calm: bool,
                    spoilt: set<nat>)
    requires blockSize > 0 && at == offset + |out| < |file| && Holds(b, at, file, blockSize, calm)
    requires n <= |b.data| - (at - b.offset)
    requires MatchesBut(out, offset, file, blockSize, spoilt)
    ensures MatchesBut(out + b.data[at - b.offset..at - b.offset + n], offset, file, blockSize,
                       if b.failed then spoilt + {b.id} else spoilt)
  {
    var more := b.data[at - b.offset..at - b.offset + n];
    forall i | 0 <= i < |more| && at + i < |file|
      ensures BlockIndex(at + i, blockSize) == b.id && (!b.failed ==> more[i] == file[at + i])
    {
      InBlock(b.id, at + i, blockSize);
      if !b.failed {
        var m := Min(blockSize, |file| - b.offset);
        assert b.data[..m][at - b.offset + i] == file[b.offset..b.offset + m][at - b.offset + i];
      }
    }
  }

  /** A position lies in the one block that covers it. */
  lemma InBlock(k: nat, at: nat, blockSize: nat)
    requires blockSize > 0 && k * blockSize <= at < k * blockSize + blockSize
    ensures BlockIndex(at, blockSize) == k
  {
    var q := at / blockSize;
    assert at == q * blockSize + at % blockSize;
    if q < k {
      TimesGrows(q + 1, k, blockSize);
    } else if q > k {
      TimesGrows(k + 1, q, blockSize);
    }
  }

  lemma TimesGrows(a: nat, b: nat, c: nat)
    requires a <= b
    ensures a * c <= b * c
  {
  }

  lemma NoNodes(w: State, file: Bytes, blockSize: nat, calm: bool, sure: bool)
    requires Inv(w, file, blockSize, calm, sure) && w.cooked == [] && w.cooking == []
    ensures w.nodes == map[]
  {
  }

  lemma RefreshLined(w: State, index: nat, file: Bytes, blockSize: nat, calm: bool, sure: bool)
    requires Inv(w, file, blockSize, calm, sure) && w.cooked != [] && w.cooked[0] in w.blocks && index !in w.nodes
    ensures var w' := Refreshed(w, index, blockSize);
      && Lined(w, w') && index in w'.nodes && w'.nodes[index] in w'.cooking
      && |w'.cooked| == |w.cooked| - 1 && |w'.cooking| == |w.cooking| + 1
  {
    var w' := Refreshed(w, index, blockSize);
    assert w'.nodes[index] == w'.cooking[0];
    assert forall q :: q in w.cooking ==> q in w'.cooking;
    FrontGone(w.cooked);
  }

  lemma LinedSpoils(w: State, w': State)
    requires Lined(w, w')
    ensures NoMoreSpoilt(w, w') && NoMoreDoomed(w, w')
  {
  }

  lemma FreeFront(w: State, free: seq<Ref>, nextRef: Ref, maxBlocks: nat, file: Bytes, blockSize: nat, calm: bool,
                  sure: bool)
    requires Inv(w, file, blockSize, calm, sure) && w.cooked != []
    requires Sound(free, w.blocks, nextRef, maxBlocks, blockSize)
    ensures w.cooked[0] in w.blocks && w.blocks[w.cooked[0]].id >= -1 && Unrepeated(w.cooked)
    ensures forall r :: r in w.cooked && r in w.blocks ==> |w.blocks[r].data| == blockSize
  {
    assert Idle(w, w.cooked[0], file, blockSize, calm);
  }

  lemma ServeOwned(w: State, i: nat, free: seq<Ref>, file: Bytes, blockSize: nat, calm: bool, sure: bool,
                   others: set<Ref>)
    requires Inv(w, file, blockSize, calm, sure) && i < |w.cooking| && w.cooking[i] in w.blocks
    requires Owned(w.blocks.Keys, free, w.cooked, w.cooking, others)
    ensures var w' := Served(w, i); Owned(w.blocks.Keys, free, w'.cooked, w'.cooking, others)
  {
    hide Loading, Open, QueueOk;
    WithoutMember(w.cooking, i);
    var w' := Served(w, i);
    assert forall q :: q in w'.cooked <==> q in w.cooked || q == w.cooking[i];
    hide Without, Unrepeated;
    assert Elements(w'.cooked) + Elements(w'.cooking) == Elements(w.cooked) + Elements(w.cooking);
  }

  lemma RotateKeeps(w: State, free: seq<Ref>, file: Bytes, blockSize: nat, calm: bool, sure: bool, others: set<Ref>)
    requires Inv(w, file, blockSize, calm, sure) && w.cooking != []
    requires Owned(w.blocks.Keys, free, w.cooked, w.cooking, others)
    ensures var w' := w.(cooking := w.cooking[1..] + [w.cooking[0]]);
      Inv(w', file, blockSize, calm, sure) && Owned(w.blocks.Keys, free, w'.cooked, w'.cooking, others)
  {
    var w' := w.(cooking := w.cooking[1..] + [w.cooking[0]]);
    FrontGone(w.cooking);
    assert forall q :: q in w'.cooking <==> q in w.cooking;
    assert Elements(w'.cooking) == Elements(w.cooking);
    forall q | q in w.cooking ensures InFlight(w', q, file, blockSize, sure) {
      assert InFlight(w, q, file, blockSize, sure);
    }
    forall q | q in w.cooked ensures Idle(w', q, file, blockSize, calm) { assert Idle(w, q, file, blockSize, calm); }
  }

  lemma FrontIdle(w: State, file: Bytes, blockSize: nat, calm: bool, sure: bool)
    requires Inv(w, file, blockSize, calm, sure) && w.cooked != []
    ensures w.cooked[0] !in QueueBlocks(w.queue) && w.cooked[0] !in w.cooking && Unrepeated(w.cooked[1..])
    ensures Unrepeated(w.cooking)
    ensures forall q :: q in w.cooked[1..] <==> q in w.cooked && q != w.cooked[0]
  {
    FrontGone(w.cooked);
  }

  lemma DroppedNodes(w: State, w': State, r: Ref)
    requires Dropped(w, w', r)
    ensures w'.nodes.Keys <= w.nodes.Keys && (w.blocks[r].id >= 0 ==> w.blocks[r].id !in w'.nodes)
  {
  }

  lemma DroppedSpoils(w: State, w': State, r: Ref, file: Bytes, blockSize: nat, calm: bool, sure: bool)
    requires Dropped(w, w', r) && Inv(w, file, blockSize, calm, sure)
    ensures NoMoreSpoilt(w, w') && NoMoreDoomed(w, w')
  {
  }

  lemma TakenPushed(w: State, w': State, free: seq<Ref>, free': seq<Ref>, r: Ref, others: map<Ref, Block>)
    requires Owned(w.blocks.Keys, free, w.cooked, w.cooking, others.Keys) && Theirs(w.blocks, others)
    requires Taken(free, free', w.blocks, w'.blocks, r) && w' == w.(blocks := w'.blocks, cooked := [r] + w.cooked)
    ensures Pushed(w, w', r) && Owned(w'.blocks.Keys, free', w'.cooked, w'.cooking, others.Keys)
    ensures Theirs(w'.blocks, others)
    ensures forall q :: q in w.cooking && q in w.blocks ==> q in w'.blocks && w'.blocks[q] == w.blocks[q]
  {
    TakenOwned(w.blocks, w'.blocks, free, free', w.cooked, w.cooking, others.Keys, r);
    assert forall q :: q in w'.cooked <==> q in w.cooked || q == r;
    assert Elements(w'.cooked) == Elements(w.cooked) + {r};
  }
}
