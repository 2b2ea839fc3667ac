/** Any number of readers and writers over one pool of blocks. */
module Handles {
  import opened FlatFile
  import opened BlobStore
  import opened BlockPool
  import opened Sequences
  import R = Reader
  import W = Writer

  /** Every live block is free, or held by exactly one handle. */
  ghost predicate Partition(live: set<Ref>, free: seq<Ref>, parts: seq<set<Ref>>)
  {
    && (forall r :: r in live ==> r in free || exists i :: 0 <= i < |parts| && r in parts[i])
    && (forall i, r :: 0 <= i < |parts| && r in parts[i] ==> r in live && r !in free)
    && (forall i, j, r :: 0 <= i < |parts| && 0 <= j < |parts| && i != j && r in parts[i] ==> r !in parts[j])
  }

  /** What a step of handle i may do: it leaves the blocks of the others in their hands. */
  lemma StepPartition(live: set<Ref>, free: seq<Ref>, parts: seq<set<Ref>>, i: nat, others: set<Ref>,
                      live': set<Ref>, free': seq<Ref>, cooked: seq<Ref>, cooking: seq<Ref>)
    requires Partition(live, free, parts) && i < |parts| && others == live - Elements(free) - parts[i]
    requires Owned(live', free', cooked, cooking, others)
    ensures Partition(live', free', parts[i := Elements(cooked) + Elements(cooking)])
    ensures forall j :: 0 <= j < |parts| && j != i ==> parts[j] <= others
  {
    var part := Elements(cooked) + Elements(cooking);
    var parts' := parts[i := part];
    forall r | r in live' ensures r in free' || exists j :: 0 <= j < |parts'| && r in parts'[j] {
      if r in part {
        assert r in parts'[i];
      } else if r in others {
        var j :| 0 <= j < |parts| && r in parts[j];
        assert r in parts'[j];
      }
    }
  }

  /** A handle that takes what is not free and not its own to be the others'. */
  lemma RestOwned(live: set<Ref>, free: seq<Ref>, parts: seq<set<Ref>>, i: nat, cooked: seq<Ref>, cooking: seq<Ref>)
    requires Partition(live, free, parts) && Elements(free) <= live && i < |parts|
    requires parts[i] == Elements(cooked) + Elements(cooking)
    ensures Owned(live, free, cooked, cooking, live - Elements(free) - parts[i])
  {
    assert forall r :: r in parts[i] <==> r in cooked || r in cooking;
  }

  lemma OnePartMore(live: set<Ref>, free: seq<Ref>, parts: seq<set<Ref>>, k: nat)
    requires Partition(live, free, parts) && k <= |parts|
    ensures Partition(live, free, parts[..k] + [{}] + parts[k..])
  {
    var parts' := parts[..k] + [{}] + parts[k..];
    assert forall i :: 0 <= i < |parts'| ==>
      parts'[i] == if i < k then parts[i] else if i == k then {} else parts[i - 1];
    forall r | r in live ensures r in free || exists i :: 0 <= i < |parts'| && r in parts'[i] {
      if r !in free {
        var i :| 0 <= i < |parts| && r in parts[i];
        assert r in parts'[if i < k then i else i + 1];
      }
    }
  }

  /** Once no handle holds a block, the pool has as many free blocks as it was made with. */
  lemma NoneHeld(free: seq<Ref>, blocks: map<Ref, Block>, nextRef: Ref, maxBlocks: nat, blockSize: nat,
                 parts: seq<set<Ref>>)
    requires Sound(free, blocks, nextRef, maxBlocks, blockSize) && Partition(blocks.Keys, free, parts)
    requires forall i :: 0 <= i < |parts| ==> parts[i] == {}
    ensures |free| == maxBlocks
  {
    assert blocks.Keys == Elements(free);
    AllFree(free, blocks, nextRef, maxBlocks, blockSize);
  }

  ghost function Rest(blocks: map<Ref, Block>, free: seq<Ref>, part: set<Ref>): (others: map<Ref, Block>)
    ensures others.Keys == blocks.Keys - Elements(free) - part && Theirs(blocks, others)
  {
    map r | r in blocks && r !in free && r !in part :: blocks[r]
  }

  ghost function HeldByReader(h: R.Reader): set<Ref>
    reads h
  {
    Elements(h.cooked) + Elements(h.cooking)
  }

  ghost function HeldByWriter(h: W.Writer): set<Ref>
    reads h
  {
    Elements(h.cooked) + Elements(h.cooking)
  }

  /** A reader all in order, with its blocks in this memory, but for whose the other blocks are. */
  ghost predicate ReaderFine(h: R.Reader, blocks: map<Ref, Block>)
    reads h
  {
    h.Bounded() && R.Inv(R.State(blocks, h.nodes, h.cooked, h.cooking, h.queue), h.file, h.blockSize, h.Calm(),
                         !h.GaveUp())
  }

  ghost predicate WriterFine(h: W.Writer, blocks: map<Ref, Block>)
    reads h
  {
    && !h.Stray() && W.Chunked(h.chunks, h.blockSize, h.size) && |h.chunks| <= W.MAX_BLOCKS
    && var w := W.State(blocks, h.nodes, h.cooked, h.cooking, h.listMap, h.blob, h.queue, h.chunks);
    W.Inv(w, {}, h.blockSize, h.nextId) && W.Settled(w, h.blockSize, h.size)
  }

  lemma ReaderIsFine(h: R.Reader, blocks: map<Ref, Block>)
    requires h.Valid() && h.Bounded() && blocks == h.pool.blocks
    ensures ReaderFine(h, blocks)
  {
  }

  lemma WriterIsFine(h: W.Writer, blocks: map<Ref, Block>)
    requires h.Valid({}) && W.Settled(h.St(), h.blockSize, h.size) && !h.Stray() && blocks == h.pool.blocks
    ensures WriterFine(h, blocks)
  {
  }

  /** Distinct readers of this pool that hold the blocks in parts, all but `skip` in order with this memory. */
  ghost predicate Readers(rs: seq<R.Reader>, parts: seq<set<Ref>>, pool: BlockPool, blocks: map<Ref, Block>, skip: int)
    reads rs
  {
    && Unrepeated(rs) && |parts| == |rs|
    && (forall i :: 0 <= i < |rs| ==>
          rs[i].pool == pool && rs[i].blockSize == pool.blockSize && (i != skip ==> ReaderFine(rs[i], blocks)))
    && (forall i :: 0 <= i < |rs| && i != skip ==> parts[i] == HeldByReader(rs[i]))
  }

  ghost predicate Writers(ws: seq<W.Writer>, parts: seq<set<Ref>>, pool: BlockPool, blocks: map<Ref, Block>, skip: int)
    reads ws
  {
    && Unrepeated(ws) && |parts| == |ws|
    && (forall i :: 0 <= i < |ws| ==>
          ws[i].pool == pool && ws[i].blockSize == pool.blockSize && (i != skip ==> WriterFine(ws[i], blocks)))
    && (forall i :: 0 <= i < |ws| && i != skip ==> parts[i] == HeldByWriter(ws[i]))
  }

  datatype ReaderOp = Prefetch(ahead: bool) | Read(offset: nat, length: nat) | WorkOnDownloads | CloseReader

  datatype WriterOp = Do(op: W.Op) | WorkOnUploads

  /** A handle is opened, or used; the handles of each kind are numbered as they were opened. */
  datatype Event =
    | OpenReader(file: Bytes, prefetch: nat, ahead: bool) | OpenWriter(prefetch: nat)
    | UseReader(i: nat, r: ReaderOp) | UseWriter(i: nat, w: WriterOp)

  /** What an event reports: nothing, what was read, or how an operation of a writer went. */
  datatype Output = Silent | Data(bytes: Bytes) | Reported(out: W.Outcome)

  // ---- what can be seen of a run ----

  /** Of a reader: its file, what each read asked for and got, and whether its last operation was to close it. */
  datatype ReaderView = ReaderView(file: Bytes, got: seq<Got>, closed: bool)

  /** A read of so many bytes from an offset on, and what it returned. */
  datatype Got = Got(offset: nat, length: nat, bytes: Bytes)

  /** Of a writer: its operations, what they reported, and whether the last one closed it. */
  datatype WriterView = WriterView(ops: seq<W.Op>, outs: seq<W.Outcome>, closed: bool)

  datatype View = View(readers: seq<ReaderView>, writers: seq<WriterView>)

  function SeenReader(v: ReaderView, e: ReaderOp, o: Output): ReaderView
  {
    match e
    case Read(offset, length) =>
      v.(got := v.got + [Got(offset, length, if o.Data? then o.bytes else [])], closed := false)
    case CloseReader => v.(closed := true)
    case _ => v
  }

  function SeenWriter(v: WriterView, e: WriterOp, o: Output): WriterView
  {
    if e.Do? then
      var out := if o.Reported? then o.out else W.Wrote(0);
      WriterView(v.ops + [e.op], v.outs + [out], e.op == W.Close && out == W.Flushed(true))
    else v
  }

  function Seen(v: View, e: Event, o: Output): View
  {
    match e
    case OpenReader(file, _, _) => v.(readers := v.readers + [ReaderView(file, [], false)])
    case OpenWriter(_) => v.(writers := v.writers + [WriterView([], [], false)])
    case UseReader(i, r) =>
      if i < |v.readers| && !r.Prefetch? then v.(readers := v.readers[i := SeenReader(v.readers[i], r, o)]) else v
    case UseWriter(i, w) =>
      if i < |v.writers| then v.(writers := v.writers[i := SeenWriter(v.writers[i], w, o)]) else v
  }

  /** All there is to see of a run. */
  function Watch(events: seq<Event>, outs: seq<Output>): View
    requires |events| == |outs|
  {
    if events == [] then View([], [])
    else
      var n := |events| - 1;
      Seen(Watch(events[..n], outs[..n]), events[n], outs[n])
  }

  lemma WatchNone()
    ensures Watch([], []) == View([], [])
  {
  }

  lemma WatchMore(events: seq<Event>, outs: seq<Output>, e: Event, o: Output)
    requires |events| == |outs|
    ensures Watch(events + [e], outs + [o]) == Seen(Watch(events, outs), e, o)
  {
    assert (events + [e])[..|events|] == events && (outs + [o])[..|outs|] == outs;
  }

  /** While reads are sequential or no download was given up, every read got the bytes of the file; when none was given
      up and there was always memory, every read got all it asked for or all there is; and a closed reader holds no
      block. */
  ghost predicate ReaderTold(h: R.Reader, v: ReaderView)
    reads h
  {
    && h.file == v.file && (v.closed ==> HeldByReader(h) == {})
    && (h.Calm() ==> forall j :: 0 <= j < |v.got| ==> R.Matches(v.got[j].bytes, v.got[j].offset, v.file))
    && (!h.GaveUp() && h.starved == 0 ==>
          forall j :: 0 <= j < |v.got| ==> R.Complete(v.got[j].bytes, v.got[j].offset, v.got[j].length, v.file))
  }

  /** What `Writer.Told` says of the file and the blob; and a writer closed with success holds no block. */
  ghost predicate WriterTold(h: W.Writer, v: WriterView, lost: seq<bool>)
    reads h
  {
    h.Told(W.Log(v.ops, v.outs, lost)) && (v.closed ==> HeldByWriter(h) == {})
  }

  ghost predicate AllTold(rs: seq<R.Reader>, ws: seq<W.Writer>, v: View, lost: seq<seq<bool>>)
    reads rs, ws
  {
    && |v.readers| == |rs| && |v.writers| == |ws| == |lost|
    && (forall i :: 0 <= i < |rs| ==> ReaderTold(rs[i], v.readers[i]))
    && (forall i :: 0 <= i < |ws| ==> WriterTold(ws[i], v.writers[i], lost[i]))
  }

  /** Every handle that was opened has been closed, with success. */
  predicate Finished(v: View)
  {
    && (forall i :: 0 <= i < |v.readers| ==> v.readers[i].closed)
    && (forall i :: 0 <= i < |v.writers| ==> v.writers[i].closed)
  }

  /** The open handles of a mounted file system. */
  class Mount {
    const pool: BlockPool
    var readers: seq<R.Reader>
    var writers: seq<W.Writer>

    ghost var rparts: seq<set<Ref>>    // what each reader holds
    ghost var wparts: seq<set<Ref>>    // what each writer holds
    ghost var view: View               // what was seen of each of them
    ghost var lost: seq<seq<bool>>     // for each operation of each writer, whether it lost bytes

    /** What was seen of each handle is true of it. */
    ghost predicate Told()
      reads this, readers, writers
    {
      AllTold(readers, writers, view, lost)
    }

    ghost predicate Valid()
      reads this, pool, readers, writers
    {
      && pool.Valid() && pool.blockSize > 0 && Partition(pool.blocks.Keys, pool.free, rparts + wparts)
      && Readers(readers, rparts, pool, pool.blocks, -1) && Writers(writers, wparts, pool, pool.blocks, -1)
    }

    constructor (pool: BlockPool)
      requires pool.Valid() && pool.blockSize > 0 && pool.blocks.Keys == Elements(pool.free)
      ensures Valid() && Told() && this.pool == pool && readers == [] && writers == [] && view == View([], [])
    {
      this.pool, readers, writers, rparts, wparts := pool, [], [], [], [];
      view, lost := View([], []), [];
    }

    /** An operation of reader i, or a worker's step for it; every other handle is as good as before. */
    method OnReader(i: nat, e: ReaderOp) returns (o: Output)
      requires Valid() && Told() && i < |readers| && (e.Prefetch? ==> Unused(readers[i]) && !view.readers[i].closed)
      modifies this`rparts, this`view, pool, readers[i]
      ensures Valid() && Told()
      ensures view == old(view).(readers := old(view).readers[i := SeenReader(old(view).readers[i], e, o)])
      ensures e.Read? ==> o.Data?
      ensures e.Read? && readers[i].Calm() ==> R.Matches(o.bytes, e.offset, readers[i].file)
      ensures e.Read? && !readers[i].GaveUp() && readers[i].starved == old(readers[i].starved) ==>
        R.Complete(o.bytes, e.offset, e.length, readers[i].file)
      ensures e == CloseReader ==> HeldByReader(readers[i]) == {}
    {
      hide Partition, Sound, Readers, Writers, R.Matches, R.Complete, ReaderTold, WriterTold, SeenReader, Elements;
      OnceEach(readers, rparts, writers, wparts, pool, pool.blocks);
      o := StepReader(i, e, view.readers[i]);
      view := view.(readers := view.readers[i := SeenReader(view.readers[i], e, o)]);
    }

    method StepReader(i: nat, e: ReaderOp, ghost v: ReaderView) returns (o: Output)
      requires Valid() && i < |readers| && ReaderTold(readers[i], v)
      requires e.Prefetch? ==> Unused(readers[i]) && !v.closed
      modifies this`rparts, pool, readers[i]
      ensures Valid() && ReaderTold(readers[i], SeenReader(v, e, o))
      ensures e.Read? ==> o.Data?
      ensures e.Read? && readers[i].Calm() ==> R.Matches(o.bytes, e.offset, readers[i].file)
      ensures e.Read? && !readers[i].GaveUp() && readers[i].starved == old(readers[i].starved) ==>
        R.Complete(o.bytes, e.offset, e.length, readers[i].file)
      ensures e == CloseReader ==> HeldByReader(readers[i]) == {}
    {
      hide Partition, Sound, Owned, Theirs, R.Matches, R.Complete, ReaderFine, WriterFine, Writers, Rest, Elements;
      hide ReaderTold;
      hide SeenReader;
      var h := readers[i];
      ghost var parts, free, blocks := rparts + wparts, pool.free, pool.blocks;
      assert parts[i] == rparts[i] && parts[|readers|..] == wparts && rparts <= parts;
      o := ReaderStep(h, e, parts, i, v);
      assert Readers(readers, rparts, pool, blocks, i);
      KeepReaders(readers, rparts, pool, blocks, pool.blocks, free, parts, i, i);
      KeepWriters(writers, wparts, pool, blocks, pool.blocks, free, parts, i, -1, |readers|);
      rparts := rparts[i := HeldByReader(h)];
      assert rparts + wparts == parts[i := HeldByReader(h)];
    }

    /** The same for writer i. What a write took is behind what was there, and of that the last block is lost
        exactly when the write goes into it, it is held no more and it is not served. */
    method OnWriter(i: nat, e: WriterOp) returns (o: Output)
      requires Valid() && Told() && i < |writers|
      modifies this`wparts, this`view, this`lost, pool, writers[i]
      ensures Valid() && Told()
      ensures view == old(view).(writers := old(view).writers[i := SeenWriter(old(view).writers[i], e, o)])
      ensures e.Do? ==> o.Reported? && W.Fits(e.op, o.out)
      ensures e.Do? ==> Grew(writers[i], e.op, o.out, old(writers[i].chunks), old(Losing(writers[i], e.op)))
      ensures !e.Do? ==> writers[i].chunks == old(writers[i].chunks)
      ensures e == Do(W.Close) && o == Reported(W.Flushed(true)) ==> HeldByWriter(writers[i]) == {}
    {
      hide Partition, Sound, Readers, Writers, ReaderTold, WriterTold, SeenWriter, Grew, Losing, Elements, W.Fits;
      OnceEach(readers, rparts, writers, wparts, pool, pool.blocks);
      ghost var l;
      o, l := StepWriter(i, e, view.writers[i], lost[i]);
      view := view.(writers := view.writers[i := SeenWriter(view.writers[i], e, o)]);
      lost := lost[i := l];
    }

    method StepWriter(i: nat, e: WriterOp, ghost v: WriterView, ghost was: seq<bool>)
      returns (o: Output, ghost now: seq<bool>)
      requires Valid() && i < |writers| && WriterTold(writers[i], v, was)
      modifies this`wparts, pool, writers[i]
      ensures Valid() && WriterTold(writers[i], SeenWriter(v, e, o), now)
      ensures e.Do? ==> o.Reported? && W.Fits(e.op, o.out)
      ensures e.Do? ==> Grew(writers[i], e.op, o.out, old(writers[i].chunks), old(Losing(writers[i], e.op)))
      ensures !e.Do? ==> writers[i].chunks == old(writers[i].chunks)
      ensures e == Do(W.Close) && o == Reported(W.Flushed(true)) ==> HeldByWriter(writers[i]) == {}
    {
      hide Partition, Sound, Owned, Theirs, ReaderFine, WriterFine, Readers, Rest, Elements;
      hide WriterTold, SeenWriter, Grew, Losing, W.Fits;
      var h := writers[i];
      ghost var parts, free, blocks, k := rparts + wparts, pool.free, pool.blocks, |readers| + i;
      ReaderCount(readers, rparts, pool, blocks);
      assert parts[k] == wparts[i] && parts[|readers|..] == wparts && rparts <= parts;
      o, now := WriterStep(h, e, parts, k, v, was);
      assert Writers(writers, wparts, pool, blocks, i);
      KeepReaders(readers, rparts, pool, blocks, pool.blocks, free, parts, k, -1);
      KeepWriters(writers, wparts, pool, blocks, pool.blocks, free, parts, k, i, |readers|);
      wparts := wparts[i := HeldByWriter(h)];
      assert rparts + wparts == parts[k := HeldByWriter(h)];
    }

    method NewReader(file: Bytes, prefetch: nat) returns (h: R.Reader)
      requires Valid() && Told()
      modifies this`readers, this`rparts, this`view
      ensures Valid() && Told() && fresh(h) && readers == old(readers) + [h] && Unused(h) && h.file == file
      ensures view == old(view).(readers := old(view).readers + [ReaderView(file, [], false)])
    {
      hide Partition, Sound, Readers, Writers, ReaderTold, WriterTold, Unused;
      h := AddReader(file, prefetch);
      view := view.(readers := view.readers + [ReaderView(file, [], false)]);
    }

    method AddReader(file: Bytes, prefetch: nat) returns (h: R.Reader)
      requires Valid()
      modifies this`readers, this`rparts
      ensures Valid() && fresh(h) && readers == old(readers) + [h] && Unused(h) && h.file == file
      ensures ReaderTold(h, ReaderView(file, [], false))
    {
      hide Partition, Sound, Owned, Theirs, ReaderFine, WriterFine, R.Inv, Writers, R.Matches, R.Complete;
      FreeLive(pool.free, pool.blocks, pool.nextRef, pool.maxBlocks, pool.blockSize);
      NothingOwned(pool.blocks.Keys, pool.free);
      h := new R.Reader(pool, prefetch, file, Rest(pool.blocks, pool.free, {}));
      OnePartMore(pool.blocks.Keys, pool.free, rparts + wparts, |readers|);
      ReaderIsFine(h, pool.blocks);
      assert (rparts + wparts)[..|readers|] + [{}] + (rparts + wparts)[|readers|..] == rparts + [{}] + wparts;
      assert HeldByReader(h) == {};
      readers, rparts := readers + [h], rparts + [{}];
    }

    method NewWriter(prefetch: nat) returns (h: W.Writer)
      requires Valid() && Told()
      modifies this`writers, this`wparts, this`view, this`lost
      ensures Valid() && Told() && fresh(h) && writers == old(writers) + [h]
      ensures view == old(view).(writers := old(view).writers + [WriterView([], [], false)])
    {
      hide Partition, Sound, Readers, Writers, ReaderTold, WriterTold;
      h := AddWriter(prefetch);
      view := view.(writers := view.writers + [WriterView([], [], false)]);
      lost := lost + [[]];
    }

    method AddWriter(prefetch: nat) returns (h: W.Writer)
      requires Valid()
      modifies this`writers, this`wparts
      ensures Valid() && fresh(h) && writers == old(writers) + [h] && WriterTold(h, WriterView([], [], false), [])
    {
      hide Partition, Sound, Owned, Theirs, ReaderFine, WriterFine, W.Inv, W.Settled, W.Chunked, Readers, WriterTold;
      FreeLive(pool.free, pool.blocks, pool.nextRef, pool.maxBlocks, pool.blockSize);
      NothingOwned(pool.blocks.Keys, pool.free);
      h := new W.Writer(pool, prefetch, Rest(pool.blocks, pool.free, {}));
      ghost var parts := rparts + wparts;
      OnePartMore(pool.blocks.Keys, pool.free, parts, |parts|);
      WriterIsFine(h, pool.blocks);
      NewlyTold(h);
      assert parts[..|parts|] + [{}] + parts[|parts|..] == rparts + (wparts + [{}]);
      assert HeldByWriter(h) == {};
      writers, wparts := writers + [h], wparts + [{}];
    }

    /** One event; one for a handle that is not there does nothing. */
    method Happen(e: Event) returns (o: Output)
      requires Valid() && Told()
      modifies this, pool, readers, writers
      ensures Valid() && Told() && view == Seen(old(view), e, o)
      ensures forall h :: h in readers ==> h in old(readers) || fresh(h)
      ensures forall h :: h in writers ==> h in old(writers) || fresh(h)
    {
      hide Partition, Sound, Readers, Writers, ReaderTold, WriterTold, Grew, Losing;
      o := Silent;
      match e {
        case OpenReader(file, prefetch, ahead) =>
          var h := NewReader(file, prefetch);
          ghost var seen := view.readers;
          o := OnReader(|readers| - 1, Prefetch(ahead));
          assert view.readers == seen;
        case OpenWriter(prefetch) =>
          var h := NewWriter(prefetch);
        case UseReader(i, r) =>
          if i < |readers| && !r.Prefetch? { o := OnReader(i, r); }
        case UseWriter(i, w) =>
          if i < |writers| { o := OnWriter(i, w); }
      }
    }

    /** Each live block is free, or held by one of the handles ... */
    lemma SomePlace(r: Ref)
      requires Valid() && r in pool.blocks
      ensures || r in pool.free || (exists h :: h in readers && r in HeldByReader(h))
              || exists h :: h in writers && r in HeldByWriter(h)
    {
      hide ReaderFine, WriterFine, Sound;
      var parts, n := rparts + wparts, |readers|;
      if r !in pool.free {
        var i :| 0 <= i < |parts| && r in parts[i];
        if i < n {
          assert readers[i] in readers && r in HeldByReader(readers[i]);
        } else {
          assert writers[i - n] in writers && r in HeldByWriter(writers[i - n]);
        }
      }
    }

    /** ... and by no more than one of them, and not while it is free. */
    lemma OnePlace(i: nat, j: nat, r: Ref)
      requires Valid() && i < |readers| + |writers| && j < |readers| + |writers| && r in Held(i)
      ensures r in pool.blocks && r !in pool.free && (r in Held(j) ==> i == j)
    {
      hide ReaderFine, WriterFine, Sound;
      var parts := rparts + wparts;
      assert parts[i] == Held(i) && parts[j] == Held(j);
    }

    /** What handle i holds, the readers counted before the writers. */
    ghost function Held(i: nat): set<Ref>
      requires i < |readers| + |writers|
      reads this, readers, writers
    {
      if i < |readers| then HeldByReader(readers[i]) else HeldByWriter(writers[i - |readers|])
    }

    /** When every handle has been closed, the pool is full. */
    lemma AllClosed()
      requires Valid()
      requires forall h :: h in readers ==> HeldByReader(h) == {}
      requires forall h :: h in writers ==> HeldByWriter(h) == {}
      ensures |pool.free| == pool.maxBlocks
    {
      hide ReaderFine, WriterFine, Sound, Partition;
      assert forall i :: 0 <= i < |readers| ==> readers[i] in readers;
      assert forall i :: 0 <= i < |writers| ==> writers[i] in writers;
      NoneHeld(pool.free, pool.blocks, pool.nextRef, pool.maxBlocks, pool.blockSize, rparts + wparts);
    }
  }

  /** Whether this write loses the last block: it takes bytes into it, it is held no more and it is not served. */
  ghost predicate Losing(h: W.Writer, op: W.Op)
    reads h
  {
    op.Write? && h.Gone() && h.Unserved(op.serves)
  }

  /** What an operation of a writer leaves: the bytes taken behind those that were there, and after a flush or close
      with success a blob that is the file. */
  ghost predicate Grew(h: W.Writer, op: W.Op, out: W.Outcome, chunks: seq<Bytes>, losing: bool)
    requires W.Fits(op, out)
    reads h
  {
    && W.Extended(chunks, h.chunks, W.Gain(op, out), losing && out.Wrote? && out.n > 0)
    && (out == W.Flushed(true) ==> Content(h.blob) == W.Join(h.chunks))
  }

  /** Every run of any number of handles over one pool, known by its events and what they reported. Each live block is
      free or held by exactly one handle. Every read got the bytes of its file while reads were sequential or no
      download was given up. What each writer's file holds, and exactly when bytes of it were lost, is as in a run of
      the writer alone; when none was, and the last flush or close after the last write succeeded, the blob is
      the bytes the writes took. And when every handle has been closed with success, exactly as many blocks are free
      as the pool was made with. */
  method Run(blockSize: nat, memSize: nat, events: seq<Event>)
    returns (m: Mount, outs: seq<Output>, ghost lost: seq<seq<bool>>)
    requires 0 < blockSize <= memSize
    ensures m.Valid() && |outs| == |events| && m.pool.blockSize == blockSize
    ensures AllTold(m.readers, m.writers, Watch(events, outs), lost)
    ensures forall i :: 0 <= i < |m.writers| ==> Delivered(m.writers[i], Watch(events, outs).writers[i], blockSize)
    ensures Finished(Watch(events, outs)) ==> |m.pool.free| == m.pool.maxBlocks == memSize / blockSize
  {
    hide Partition, Sound, Readers, Writers, ReaderTold, WriterTold, Delivered, Seen, Watch, AllTold, Finished;
    WatchNone();
    var pool := new BlockPool(blockSize, memSize);
    m := new Mount(pool);
    outs := [];
    for i := 0 to |events|
      invariant fresh(m) && fresh(m.pool) && m.Valid() && m.Told() && m.pool.maxBlocks == memSize / blockSize
      invariant m.pool.blockSize == blockSize && |outs| == i && m.view == Watch(events[..i], outs)
      invariant (forall h :: h in m.readers ==> fresh(h)) && forall h :: h in m.writers ==> fresh(h)
    {
      assert fresh(m.readers) && fresh(m.writers) by {
        assert (forall k :: 0 <= k < |m.readers| ==> m.readers[k] in m.readers) && forall k :: 0 <= k < |m.writers| ==>
          m.writers[k] in m.writers;
      }
      var o := m.Happen(events[i]);
      WatchMore(events[..i], outs, events[i], o);
      assert events[..i + 1] == events[..i] + [events[i]];
      outs := outs + [o];
    }
    assert events[..|events|] == events;
    lost := m.lost;
    AllDelivered(m.writers, m.wparts, m.pool, m.pool.blocks, m.view, m.lost, m.readers, blockSize);
    if Finished(m.view) {
      NothingHeld(m.readers, m.writers, m.view, m.lost);
      m.AllClosed();
    }
  }

  /** When nothing was written after the last flush or close that succeeded, and no write went into a block that was
      not served again, the blob is the bytes that were taken. */
  ghost predicate Delivered(h: W.Writer, v: WriterView, blockSize: nat)
    reads h
  {
    && blockSize > 0 && W.Answers(v.ops, v.outs)
    && (W.UpToDate(v.outs) && W.Careful(v.ops, v.outs, blockSize) ==> Content(h.blob) == W.Accepted(v.ops, v.outs))
  }

  lemma OneDelivered(h: W.Writer, v: WriterView, lost: seq<bool>, blocks: map<Ref, Block>)
    requires WriterFine(h, blocks) && WriterTold(h, v, lost)
    ensures Delivered(h, v, h.blockSize)
  {
    hide W.Inv, W.LossAt, W.Careful, W.Accepted, W.UpToDate, W.Join, W.Answers, Flatten;
    var w := W.State(blocks, h.nodes, h.cooked, h.cooking, h.listMap, h.blob, h.queue, h.chunks);
    W.SettledContent(w, h.blockSize, h.size);
    if W.Careful(v.ops, v.outs, h.blockSize) { W.NothingLost(v.ops, v.outs, lost, h.blockSize); }
  }

  lemma AllDelivered(ws: seq<W.Writer>, parts: seq<set<Ref>>, pool: BlockPool, blocks: map<Ref, Block>, v: View,
                     lost: seq<seq<bool>>, rs: seq<R.Reader>, blockSize: nat)
    requires Writers(ws, parts, pool, blocks, -1) && AllTold(rs, ws, v, lost) && pool.blockSize == blockSize
    ensures forall i :: 0 <= i < |ws| ==> Delivered(ws[i], v.writers[i], blockSize)
  {
    hide WriterFine, WriterTold, ReaderTold, Delivered;
    forall i | 0 <= i < |ws| ensures Delivered(ws[i], v.writers[i], blockSize) {
      OneDelivered(ws[i], v.writers[i], lost[i], blocks);
    }
  }

  lemma NothingHeld(rs: seq<R.Reader>, ws: seq<W.Writer>, v: View, lost: seq<seq<bool>>)
    requires AllTold(rs, ws, v, lost) && Finished(v)
    ensures (forall h :: h in rs ==> HeldByReader(h) == {}) && forall h :: h in ws ==> HeldByWriter(h) == {}
  {
    forall h | h in rs ensures HeldByReader(h) == {} {
      var i :| 0 <= i < |rs| && rs[i] == h;
      assert ReaderTold(rs[i], v.readers[i]) && v.readers[i].closed;
    }
    forall h | h in ws ensures HeldByWriter(h) == {} {
      var i :| 0 <= i < |ws| && ws[i] == h;
      assert WriterTold(ws[i], v.writers[i], lost[i]) && v.writers[i].closed;
    }
  }

  lemma NewlyTold(h: W.Writer)
    requires h.Valid({}) && W.Settled(h.St(), h.blockSize, h.size) && h.chunks == [] && h.nodes == map[]
    ensures WriterTold(h, WriterView([], [], false), [])
  {
    W.NothingTold(h);
  }

  lemma OnceEach(rs: seq<R.Reader>, rparts: seq<set<Ref>>, ws: seq<W.Writer>, wparts: seq<set<Ref>>, pool: BlockPool,
                 blocks: map<Ref, Block>)
    requires Readers(rs, rparts, pool, blocks, -1) && Writers(ws, wparts, pool, blocks, -1)
    ensures Unrepeated(rs) && Unrepeated(ws)
  {
  }

  lemma ReaderCount(rs: seq<R.Reader>, parts: seq<set<Ref>>, pool: BlockPool, blocks: map<Ref, Block>)
    requires Readers(rs, parts, pool, blocks, -1)
    ensures |parts| == |rs|
  {
  }

  /** A reader that was just opened. */
  ghost predicate Unused(h: R.Reader)
    reads h
  {
    h.nodes == map[] && h.cooked == [] && h.cooking == [] && h.optCnt == 0
  }

  lemma NothingOwned(live: set<Ref>, free: seq<Ref>)
    requires Elements(free) <= live
    ensures Owned(live, free, [], [], live - Elements(free) - {})
  {
  }

  /** The readers other than the one that made a step are as good after it. */
  lemma KeepReaders(rs: seq<R.Reader>, rparts: seq<set<Ref>>, pool: BlockPool, blocks: map<Ref, Block>,
                    blocks': map<Ref, Block>,
                    free: seq<Ref>, parts: seq<set<Ref>>, i: nat, skip: int)
    requires Readers(rs, rparts, pool, blocks, skip) && rparts <= parts && i < |parts| && (skip == i || |rs| <= i)
    requires Theirs(blocks', Rest(blocks, free, parts[i]))
    requires forall j :: 0 <= j < |parts| && j != i ==> parts[j] <= blocks.Keys - Elements(free) - parts[i]
    ensures Readers(rs, rparts, pool, blocks', skip)
  {
    forall j | 0 <= j < |rs| && j != skip ensures ReaderFine(rs[j], blocks') {
      var h := rs[j];
      assert parts[j] == rparts[j] == HeldByReader(h);
      HeldSame(blocks, blocks', free, parts[i], h.cooked, h.cooking);
      R.NotDisturbed(R.State(blocks, h.nodes, h.cooked, h.cooking, h.queue), blocks', h.file, h.blockSize, h.Calm(),
                     !h.GaveUp());
    }
  }

  lemma KeepWriters(ws: seq<W.Writer>, wparts: seq<set<Ref>>, pool: BlockPool, blocks: map<Ref, Block>,
                    blocks': map<Ref, Block>,
                    free: seq<Ref>, parts: seq<set<Ref>>, i: nat, skip: int, n: nat)
    requires Writers(ws, wparts, pool, blocks, skip) && n <= |parts| && parts[n..] == wparts && i < |parts|
    requires (i < n || skip == i - n)
    requires Theirs(blocks', Rest(blocks, free, parts[i]))
    requires forall j :: 0 <= j < |parts| && j != i ==> parts[j] <= blocks.Keys - Elements(free) - parts[i]
    ensures Writers(ws, wparts, pool, blocks', skip)
  {
    forall j | 0 <= j < |ws| && j != skip ensures WriterFine(ws[j], blocks') {
      var h := ws[j];
      assert parts[n + j] == wparts[j] == HeldByWriter(h);
      HeldSame(blocks, blocks', free, parts[i], h.cooked, h.cooking);
      var w := W.State(blocks, h.nodes, h.cooked, h.cooking, h.listMap, h.blob, h.queue, h.chunks);
      W.NotDisturbed(w, blocks', {}, h.blockSize, h.nextId, h.size);
    }
  }

  lemma FreeLive(free: seq<Ref>, blocks: map<Ref, Block>, nextRef: Ref, maxBlocks: nat, blockSize: nat)
    requires Sound(free, blocks, nextRef, maxBlocks, blockSize)
    ensures Elements(free) <= blocks.Keys
  {
  }

  /** The blocks of one handle are the same after a step of another. */
  lemma HeldSame(blocks: map<Ref, Block>, blocks': map<Ref, Block>, free: seq<Ref>, part: set<Ref>, cooked: seq<Ref>,
                 cooking: seq<Ref>)
    requires Theirs(blocks', Rest(blocks, free, part))
    requires Elements(cooked) + Elements(cooking) <= blocks.Keys - Elements(free) - part
    ensures forall r :: (r in cooked || r in cooking) && r in blocks ==> r in blocks' && blocks'[r] == blocks[r]
  {
    assert forall r :: r in cooked || r in cooking ==> r in Elements(cooked) + Elements(cooking);
  }

  /** An operation of a reader that holds part i and takes what is neither its own nor free to be the others'. */
  method ReaderStep(h: R.Reader, e: ReaderOp, ghost parts: seq<set<Ref>>, ghost i: nat, ghost v: ReaderView)
    returns (o: Output)
    requires h.pool.Valid() && h.pool.blockSize == h.blockSize > 0 && ReaderFine(h, h.pool.blocks)
    requires ReaderTold(h, v) && (e.Prefetch? ==> Unused(h) && !v.closed)
    requires Partition(h.pool.blocks.Keys, h.pool.free, parts) && i < |parts| && parts[i] == HeldByReader(h)
    modifies h, h.pool
    ensures h.pool.Valid() && ReaderFine(h, h.pool.blocks) && ReaderTold(h, SeenReader(v, e, o))
    ensures Partition(h.pool.blocks.Keys, h.pool.free, parts[i := HeldByReader(h)])
    ensures Theirs(h.pool.blocks, Rest(old(h.pool.blocks), old(h.pool.free), parts[i]))
    ensures forall j :: 0 <= j < |parts| && j != i ==>
      parts[j] <= old(h.pool.blocks).Keys - Elements(old(h.pool.free)) - parts[i]
    ensures e.Read? ==> o.Data?
    ensures e.Read? && h.Calm() ==> R.Matches(o.bytes, e.offset, h.file)
    ensures e.Read? && !h.GaveUp() && h.starved == old(h.starved) ==>
      R.Complete(o.bytes, e.offset, e.length, h.file)
    ensures e == CloseReader ==> HeldByReader(h) == {}
  {
    hide Partition, R.Inv, Sound, Owned, Theirs, R.Matches, R.Complete, SeenReader;
    ghost var free, blocks := h.pool.free, h.pool.blocks;
    FreeLive(free, blocks, h.pool.nextRef, h.pool.maxBlocks, h.blockSize);
    RestOwned(blocks.Keys, free, parts, i, h.cooked, h.cooking);
    h.others := Rest(blocks, free, parts[i]);
    o := ReaderDo(h, e, v);
    StepPartition(blocks.Keys, free, parts, i, h.others.Keys, h.pool.blocks.Keys, h.pool.free, h.cooked, h.cooking);
  }

  method WriterStep(h: W.Writer, e: WriterOp, ghost parts: seq<set<Ref>>, ghost i: nat, ghost v: WriterView,
                    ghost lost: seq<bool>) returns (o: Output, ghost lost': seq<bool>)
    requires h.pool.Valid() && h.pool.blockSize == h.blockSize > 0 && WriterFine(h, h.pool.blocks)
    requires WriterTold(h, v, lost)
    requires Partition(h.pool.blocks.Keys, h.pool.free, parts) && i < |parts| && parts[i] == HeldByWriter(h)
    modifies h, h.pool
    ensures h.pool.Valid() && WriterFine(h, h.pool.blocks) && WriterTold(h, SeenWriter(v, e, o), lost')
    ensures Partition(h.pool.blocks.Keys, h.pool.free, parts[i := HeldByWriter(h)])
    ensures Theirs(h.pool.blocks, Rest(old(h.pool.blocks), old(h.pool.free), parts[i]))
    ensures forall j :: 0 <= j < |parts| && j != i ==>
      parts[j] <= old(h.pool.blocks).Keys - Elements(old(h.pool.free)) - parts[i]
    ensures e.Do? ==> o.Reported? && W.Fits(e.op, o.out) && Grew(h, e.op, o.out, old(h.chunks), old(Losing(h, e.op)))
    ensures !e.Do? ==> h.chunks == old(h.chunks)
    ensures e == Do(W.Close) && o == Reported(W.Flushed(true)) ==> HeldByWriter(h) == {}
  {
    hide Partition, W.Inv, W.Settled, W.Chunked, Sound, Owned, Theirs, W.Join, Flatten, SeenWriter, Grew;
    hide W.Answers, W.UpToDate, W.Accepted, W.LossAt, W.FlushedSince, W.Fits, W.Partial, W.AllPromptly;
    ghost var free, blocks := h.pool.free, h.pool.blocks;
    FreeLive(free, blocks, h.pool.nextRef, h.pool.maxBlocks, h.blockSize);
    RestOwned(blocks.Keys, free, parts, i, h.cooked, h.cooking);
    h.others := Rest(blocks, free, parts[i]);
    o, lost' := WriterDo(h, e, v, lost);
    StepPartition(blocks.Keys, free, parts, i, h.others.Keys, h.pool.blocks.Keys, h.pool.free, h.cooked, h.cooking);
  }

  method ReaderDo(h: R.Reader, e: ReaderOp, ghost v: ReaderView) returns (o: Output)
    requires h.Valid() && h.Bounded() && ReaderTold(h, v) && (e.Prefetch? ==> Unused(h) && !v.closed)
    modifies h, h.pool
    ensures h.Valid() && h.Bounded() && h.others == old(h.others) && ReaderTold(h, SeenReader(v, e, o))
    ensures e.Read? ==> o.Data?
    ensures e.Read? && h.Calm() ==> R.Matches(o.bytes, e.offset, h.file)
    ensures e.Read? && !h.GaveUp() && h.starved == old(h.starved) ==>
      R.Complete(o.bytes, e.offset, e.length, h.file)
    ensures e == CloseReader ==> HeldByReader(h) == {}
  {
    hide R.Inv, Sound, Owned, Theirs, R.Matches, R.MatchesBut, R.Progress, R.Spoilt, R.Complete, R.Accounted, R.Doomed;
    o := Silent;
    match e {
      case Prefetch(ahead) => h.OpenFile(ahead);
      case Read(offset, length) =>
        ghost var spoilt;
        var ok, out;
        ok, out, spoilt := h.ReadInBuffer(offset, length);
        o := Data(out);
      case WorkOnDownloads =>
        ghost var w := h.St();
        h.Workers();
        R.ProgressPlaces(w, h.St());
      case CloseReader => h.CloseFile();
    }
  }

  method WriterDo(h: W.Writer, e: WriterOp, ghost v: WriterView, ghost lost: seq<bool>)
    returns (o: Output, ghost lost': seq<bool>)
    requires h.Valid({}) && W.Settled(h.St(), h.blockSize, h.size) && !h.Stray() && WriterTold(h, v, lost)
    modifies h, h.pool
    ensures h.Valid({}) && W.Settled(h.St(), h.blockSize, h.size) && !h.Stray() && h.others == old(h.others)
    ensures WriterTold(h, SeenWriter(v, e, o), lost')
    ensures e.Do? ==> o.Reported? && W.Fits(e.op, o.out) && Grew(h, e.op, o.out, old(h.chunks), old(Losing(h, e.op)))
    ensures !e.Do? ==> h.chunks == old(h.chunks)
    ensures e == Do(W.Close) && o == Reported(W.Flushed(true)) ==> HeldByWriter(h) == {}
  {
    hide W.Inv, W.Settled, W.Chunked, Sound, Owned, Theirs, W.Progress, W.Join, Flatten, W.Extended, W.Gain;
    hide W.Answers, W.UpToDate, W.Accepted, W.LossAt, W.FlushedSince, W.Partial, W.AllPromptly, W.Unfailed;
    match e {
      case Do(op) =>
        var out;
        ghost var log;
        out, log := h.Next(op, W.Log(v.ops, v.outs, lost));
        o, lost' := Reported(out), log.lost;
      case WorkOnUploads =>
        ghost var w := h.St();
        h.Workers({});
        W.ProgressSettled(w, h.St(), h.blockSize, h.size);
        W.ProgressPlaces(w, h.St());
        W.PromptStill(v.ops, v.outs, old(h.faults) == 0, h.faults == 0,
                      h.starved == 0 && h.size < W.MAX_BLOCKS * h.blockSize);
        o, lost' := Silent, lost;
    }
  }
}
