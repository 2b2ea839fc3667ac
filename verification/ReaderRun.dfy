/** A run of a reading handle, step by step, after which a read returns any bytes at all. */
module ReaderRun {
  import opened FlatFile
  import opened BlockPool
  import opened Reader
  import opened Sequences

  /** A handle between the steps of its operations. */
  datatype Handle = Handle(w: State, next: nat, optCnt: nat)

  /** The steps, each with the condition under which the program takes it. */
  datatype Event =
    | Take(r: Ref)             // a block from the pool, while more may be prefetched or when none is at hand
    | LineUp(index: nat)       // refreshBlock
    | Try(x: Item, ok: bool)   // a worker's attempt
    | Miss(index: nat)         // a read of a block that is not there, and is not the first read
    | FirstReader(i: nat)      // a read of a block whose download has ended well
    | CleanUp                  // random reads with more than a few blocks: the front block under download has ended

  ghost predicate Can(e: Event, h: Handle, h': Handle, prefetch: nat, file: Bytes, blockSize: nat)
  {
    match e
    case Take(r) =>
      && Pushed(h.w, h'.w, r) && h' == h.(w := h'.w)
      && (h.w.cooked == [] || (h.optCnt <= MIN_RANDREAD && |h.w.cooked| + |h.w.cooking| < prefetch))
    case LineUp(index) =>
      && h.w.cooked != [] && h.w.cooked[0] in h.w.blocks && index !in h.w.nodes && index * blockSize < |file|
      && h' == Handle(Refreshed(h.w, index, blockSize), index + 1, h.optCnt)
    case Try(x, ok) => Attempted(h.w, h'.w, x, ok, file, blockSize) && h' == h.(w := h'.w)
    case Miss(index) =>
      index !in h.w.nodes && index * blockSize < |file| && h.next != 0 && h' == h.(optCnt := h.optCnt + 1)
    case FirstReader(i) =>
      && i < |h.w.cooking| && h.w.cooking[i] in h.w.blocks && h.w.blocks[h.w.cooking[i]].state == Ready
      && !h.w.blocks[h.w.cooking[i]].failed && h' == h.(w := Served(h.w, i))
    case CleanUp =>
      && h.optCnt > MIN_RANDREAD && |h.w.cooked| + |h.w.cooking| > MIN_PREFETCH
      && h.w.cooking != [] && h.w.cooking[0] in h.w.blocks && h.w.blocks[h.w.cooking[0]].state == Ready
      && h' == h.(w := Served(h.w, 0))
  }

  /** The states of a run, one more than there are steps. */
  ghost predicate Runs(hs: seq<Handle>, es: seq<Event>, prefetch: nat, file: Bytes, blockSize: nat)
  {
    |hs| == |es| + 1 && forall i {:trigger es[i]} :: 0 <= i < |es| ==>
      Can(es[i], hs[i], hs[i + 1], prefetch, file, blockSize)
  }

  function Last(hs: seq<Handle>): Handle
    requires hs != []
  {
    hs[|hs| - 1]
  }

  lemma RunMore(hs: seq<Handle>, es: seq<Event>, e: Event, h: Handle, prefetch: nat, file: Bytes, blockSize: nat)
    requires Runs(hs, es, prefetch, file, blockSize) && Can(e, Last(hs), h, prefetch, file, blockSize)
    ensures Runs(hs + [h], es + [e], prefetch, file, blockSize) && Last(hs + [h]) == h && (hs + [h])[0] == hs[0]
  {
    hide Can;
    var hs', es' := hs + [h], es + [e];
    forall i {:trigger es'[i]} | 0 <= i < |es'| ensures Can(es'[i], hs'[i], hs'[i + 1], prefetch, file, blockSize) {
      if i < |es| { assert es'[i] == es[i] && hs'[i] == hs[i] && hs'[i + 1] == hs[i + 1]; }
    }
  }

  /** All memory is of one size, and block `spare` is not the handle's. */
  ghost predicate Ample(w: State, spare: Ref, blockSize: nat)
  {
    && (forall r :: r in w.blocks ==> |w.blocks[r].data| == blockSize)
    && spare in w.blocks && w.blocks[spare] == ReUsed(w.blocks[spare]) && spare !in w.cooked && spare !in w.cooking
  }

  /** OpenFile with prefetch: five blocks are taken ... */
  lemma FiveTaken(data: Bytes, file: Bytes, blockSize: nat) returns (hs: seq<Handle>, es: seq<Event>)
    requires |data| == blockSize > 0
    ensures Runs(hs, es, MIN_PREFETCH, file, blockSize) && hs[0].w == State(hs[0].w.blocks, map[], [], [], {})
    ensures hs[0].next == 0 == hs[0].optCnt && Last(hs) == Handle(Last(hs).w, 0, 0)
    ensures var w := Last(hs).w;
      && Inv(w, file, blockSize, false, false) && Ample(w, 5, blockSize)
      && |w.cooked| == 5 && w.cooking == [] && w.nodes == map[] && w.queue == {}
  {
    var b := Block(-1, 0, 0, data, Pending, false, false, false);
    var blocks := map[0 := b, 1 := b, 2 := b, 3 := b, 4 := b, 5 := b];
    var w := State(blocks, map[], [], [], {});
    NewHandle(w, file, blockSize);
    Weaken(w, file, blockSize, true, true, false, false);
    hs, es := [Handle(w, 0, 0)], [];
    hide Inv, Can;
    for n := 0 to 5
      invariant Runs(hs, es, MIN_PREFETCH, file, blockSize) && hs[0] == Handle(State(blocks, map[], [], [], {}), 0, 0)
      invariant Last(hs) == Handle(w, 0, 0) && w == State(blocks, map[], w.cooked, [], {})
      invariant Inv(w, file, blockSize, false, false) && |w.cooked| == n && forall r :: r in w.cooked ==> r < n
    {
      var w' := w.(cooked := [n] + w.cooked);
      TakeStep(w, w', n, file, blockSize);
      RunMore(hs, es, Take(n), Handle(w', 0, 0), MIN_PREFETCH, file, blockSize);
      hs, es, w := hs + [Handle(w', 0, 0)], es + [Take(n)], w';
    }
  }

  lemma TakeStep(w: State, w': State, n: nat, file: Bytes, blockSize: nat)
    requires Inv(w, file, blockSize, false, false) && n in w.blocks && w.blocks[n] == ReUsed(w.blocks[n])
    requires n !in w.cooked && n !in w.cooking && |w.cooked| + |w.cooking| < MIN_PREFETCH
    requires w' == w.(cooked := [n] + w.cooked)
    ensures Can(Take(n), Handle(w, 0, 0), Handle(w', 0, 0), MIN_PREFETCH, file, blockSize)
    ensures Inv(w', file, blockSize, false, false)
  {
    assert w.blocks[n := w.blocks[n]] == w.blocks;
    hide Inv;
    PushKeeps(w, w', n, file, blockSize, false, false);
  }

  /** ... and lined up for the first five blocks of the file. */
  lemma FiveLinedUp(hs0: seq<Handle>, es0: seq<Event>, file: Bytes, blockSize: nat)
    returns (hs: seq<Handle>, es: seq<Event>)
    requires |file| > 4 * blockSize > 0 && Runs(hs0, es0, MIN_PREFETCH, file, blockSize)
    requires Last(hs0) == Handle(Last(hs0).w, 0, 0)
    requires var w := Last(hs0).w;
      && Inv(w, file, blockSize, false, false) && Ample(w, 5, blockSize)
      && |w.cooked| == 5 && w.cooking == [] && w.nodes == map[] && w.queue == {}
    ensures Runs(hs, es, MIN_PREFETCH, file, blockSize) && hs[0] == hs0[0]
    ensures Last(hs) == Handle(Last(hs).w, 5, 0)
    ensures var w := Last(hs).w;
      && Inv(w, file, blockSize, false, false) && Ample(w, 5, blockSize)
      && w.cooked == [] && |w.cooking| == 5 && (forall k :: k in w.nodes ==> k < 5)
      && 4 in w.nodes && w.nodes[4] == w.cooking[0] && Item(w.cooking[0], 0) in w.queue
  {
    hs, es := hs0, es0;
    var w := Last(hs).w;
    for n := 0 to 5
      invariant Runs(hs, es, MIN_PREFETCH, file, blockSize) && hs[0] == hs0[0] && Last(hs) == Handle(w, n, 0)
      invariant Inv(w, file, blockSize, false, false) && Ample(w, 5, blockSize)
      invariant |w.cooked| == 5 - n && |w.cooking| == n && forall k :: k in w.nodes ==> k < n
      invariant n > 0 ==> n - 1 in w.nodes && w.nodes[n - 1] == w.cooking[0] && Item(w.cooking[0], 0) in w.queue
    {
      hide Inv, Ample;
      var h := LinedUpNext(w, n, file, blockSize);
      RunMore(hs, es, LineUp(n), h, MIN_PREFETCH, file, blockSize);
      hs, es, w := hs + [h], es + [LineUp(n)], h.w;
    }
  }

  lemma LinedUpNext(w: State, n: nat, file: Bytes, blockSize: nat) returns (h: Handle)
    requires Inv(w, file, blockSize, false, false) && Ample(w, 5, blockSize)
    requires w.cooked != [] && n * blockSize < |file| && forall k :: k in w.nodes ==> k < n
    ensures Can(LineUp(n), Handle(w, n, 0), h, MIN_PREFETCH, file, blockSize) && h == Handle(h.w, n + 1, 0)
    ensures Inv(h.w, file, blockSize, false, false) && Ample(h.w, 5, blockSize)
    ensures h.w.cooked == w.cooked[1..] && h.w.cooking == [w.cooked[0]] + w.cooking
    ensures forall k :: k in h.w.nodes ==> k < n + 1
    ensures n in h.w.nodes && h.w.nodes[n] == h.w.cooking[0] && Item(h.w.cooking[0], 0) in h.w.queue
  {
    RefreshKeeps(w, n, file, blockSize, false, false);
    h := Handle(Refreshed(w, n, blockSize), n + 1, 0);
    assert w.cooked[0] in w.cooked;
  }

  /** The download at the front is given up: four attempts fail, and the fifth leaves any bytes. */
  lemma GivenUp(hs0: seq<Handle>, es0: seq<Event>, data: Bytes, file: Bytes, blockSize: nat)
    returns (hs: seq<Handle>, es: seq<Event>)
    requires |data| == blockSize > 0 && Runs(hs0, es0, MIN_PREFETCH, file, blockSize)
    requires var w := Last(hs0).w;
      && Inv(w, file, blockSize, false, false) && Ample(w, 5, blockSize)
      && w.cooking != [] && Item(w.cooking[0], 0) in w.queue
    ensures Runs(hs, es, MIN_PREFETCH, file, blockSize) && hs[0] == hs0[0] && Last(hs) == Last(hs0).(w := Last(hs).w)
    ensures var w, w0 := Last(hs).w, Last(hs0).w;
      && Inv(w, file, blockSize, false, false) && Ample(w, 5, blockSize)
      && w == w0.(blocks := w.blocks, queue := w.queue) && GaveUp(w, data)
  {
    hide Inv, Ample, GaveUp, Can;
    hs, es := hs0, es0;
    var w0 := Last(hs0).w;
    var w, r := w0, w0.cooking[0];
    for n := 0 to 5
      invariant Runs(hs, es, MIN_PREFETCH, file, blockSize) && hs[0] == hs0[0] && Last(hs) == Last(hs0).(w := w)
      invariant Inv(w, file, blockSize, false, false) && Ample(w, 5, blockSize)
      invariant w == w0.(blocks := w.blocks, queue := w.queue)
      invariant if n < 5 then Item(r, n) in w.queue else GaveUp(w, data)
    {
      var w' := FailedTry(w, r, n, data, file, blockSize);
      var h := Last(hs).(w := w');
      TryStep(Last(hs), h, Item(r, n), false, file, blockSize);
      RunMore(hs, es, Try(Item(r, n), false), h, MIN_PREFETCH, file, blockSize);
      hs, es, w := hs + [h], es + [Try(Item(r, n), false)], w';
    }
  }

  ghost predicate GaveUp(w: State, data: Bytes)
  {
    && w.cooking != [] && w.cooking[0] in w.blocks
    && var b := w.blocks[w.cooking[0]]; b.failed && b.state == Ready && b.data == data
  }

  lemma FailedTry(w: State, r: Ref, n: nat, data: Bytes, file: Bytes, blockSize: nat) returns (w': State)
    requires Inv(w, file, blockSize, false, false) && Ample(w, 5, blockSize) && n <= 4 && |data| == blockSize
    requires w.cooking != [] && w.cooking[0] == r && Item(r, n) in w.queue
    ensures Attempted(w, w', Item(r, n), false, file, blockSize)
    ensures Inv(w', file, blockSize, false, false) && Ample(w', 5, blockSize)
    ensures w' == w.(blocks := w'.blocks, queue := w'.queue)
    ensures if n < 4 then Item(r, n + 1) in w'.queue else GaveUp(w', data)
  {
    var x := Item(r, n);
    ItemFacts(w, x, file, blockSize, false, false);
    var b := w.blocks[r].(data := data, endIndex := w.blocks[r].offset);
    if n > MAX_FAIL_CNT {
      w' := w.(blocks := w.blocks[r := b.(failed := true, state := Ready)], queue := w.queue - {x});
    } else {
      w' := w.(blocks := w.blocks[r := b], queue := w.queue - {x} + {Again(x)});
    }
    AttemptKeeps(w, w', x, false, file, blockSize, false, false);
  }

  /** The state between two random reads: the front block under download has been given up, and all reads so far
      have been served by the spare block. */
  ghost predicate Adrift(h: Handle, m: nat, data: Bytes, file: Bytes, blockSize: nat)
  {
    && h.optCnt == m && h.next == 5 + m && Inv(h.w, file, blockSize, false, false) && GaveUp(h.w, data)
    && (forall r :: r in h.w.blocks ==> |h.w.blocks[r].data| == blockSize)
    && (forall k :: k in h.w.nodes ==> k < 5 + m) && 4 in h.w.nodes && h.w.nodes[4] == h.w.cooking[0]
    && |h.w.cooking| == 5 && 5 !in h.w.cooking && 5 in h.w.blocks
    && if m == 0 then h.w.cooked == [] && h.w.blocks[5] == ReUsed(h.w.blocks[5]) else h.w.cooked == [5]
  }

  /** A random read has missed, and the spare block is at hand. */
  ghost predicate SpareReady(h: Handle, m: nat, data: Bytes, file: Bytes, blockSize: nat)
  {
    && Underway(h, m, data, file, blockSize) && h.w.cooked == [5] && |h.w.cooking| == 5
    && h.w.nodes[4] == h.w.cooking[0] && forall k :: k in h.w.nodes ==> k < 5 + m
  }

  lemma StartMiss(hs0: seq<Handle>, es0: seq<Event>, m: nat, data: Bytes, file: Bytes, blockSize: nat)
    returns (hs: seq<Handle>, es: seq<Event>)
    requires Runs(hs0, es0, MIN_PREFETCH, file, blockSize) && (5 + m) * blockSize < |file|
    requires Adrift(Last(hs0), m, data, file, blockSize)
    ensures Runs(hs, es, MIN_PREFETCH, file, blockSize) && hs[0] == hs0[0]
    ensures SpareReady(Last(hs), m, data, file, blockSize)
  {
    hide Can, Inv;
    var h := Last(hs0);
    var h1 := h.(optCnt := m + 1);
    MissStep(h, h1, 5 + m, file, blockSize);
    RunMore(hs0, es0, Miss(5 + m), h1, MIN_PREFETCH, file, blockSize);
    hs, es := hs0 + [h1], es0 + [Miss(5 + m)];
    if m == 0 {
      var h2 := SpareTaken(h1, data, file, blockSize);
      RunMore(hs, es, Take(5), h2, MIN_PREFETCH, file, blockSize);
      hs, es := hs + [h2], es + [Take(5)];
    }
  }

  /** One more random read: a miss, the spare block lined up, downloaded and read. */
  lemma OneMiss(hs0: seq<Handle>, es0: seq<Event>, m: nat, data: Bytes, file: Bytes, blockSize: nat)
    returns (hs: seq<Handle>, es: seq<Event>)
    requires Runs(hs0, es0, MIN_PREFETCH, file, blockSize) && blockSize > 0 && (5 + m) * blockSize < |file|
    requires Adrift(Last(hs0), m, data, file, blockSize)
    ensures Runs(hs, es, MIN_PREFETCH, file, blockSize) && hs[0] == hs0[0]
    ensures Adrift(Last(hs), m + 1, data, file, blockSize)
  {
    hide Can, Inv, Adrift, SpareReady;
    hs, es := StartMiss(hs0, es0, m, data, file, blockSize);
    var h3 := SpareLinedUp(Last(hs), m, data, file, blockSize);
    RunMore(hs, es, LineUp(5 + m), h3, MIN_PREFETCH, file, blockSize);
    hs, es := hs + [h3], es + [LineUp(5 + m)];
    var h4 := SpareRead(h3, m, data, file, blockSize);
    RunMore(hs, es, Try(Item(5, 0), true), h4, MIN_PREFETCH, file, blockSize);
    hs, es := hs + [h4], es + [Try(Item(5, 0), true)];
    var h5 := SpareOpened(h4, m, data, file, blockSize);
    RunMore(hs, es, FirstReader(0), h5, MIN_PREFETCH, file, blockSize);
    hs, es := hs + [h5], es + [FirstReader(0)];
  }

  lemma TryStep(h: Handle, h': Handle, x: Item, ok: bool, file: Bytes, blockSize: nat)
    requires Attempted(h.w, h'.w, x, ok, file, blockSize) && h' == h.(w := h'.w)
    ensures Can(Try(x, ok), h, h', MIN_PREFETCH, file, blockSize)
  {
  }

  lemma MissStep(h: Handle, h': Handle, index: nat, file: Bytes, blockSize: nat)
    requires index !in h.w.nodes && index * blockSize < |file| && h.next != 0 && h' == h.(optCnt := h.optCnt + 1)
    ensures Can(Miss(index), h, h', MIN_PREFETCH, file, blockSize)
  {
  }

  /** What does not change while a random read is under way. */
  ghost predicate Underway(h: Handle, m: nat, data: Bytes, file: Bytes, blockSize: nat)
  {
    && h.optCnt == m + 1 && h.next != 0 && Inv(h.w, file, blockSize, false, false)
    && (forall r :: r in h.w.blocks ==> |h.w.blocks[r].data| == blockSize)
    && 4 in h.w.nodes && h.w.nodes[4] != 5 && h.w.nodes[4] in h.w.blocks && 5 in h.w.blocks
    && var b := h.w.blocks[h.w.nodes[4]]; b.failed && b.state == Ready && b.data == data
  }

  lemma SpareTaken(h: Handle, data: Bytes, file: Bytes, blockSize: nat) returns (h': Handle)
    requires Adrift(h.(optCnt := 0), 0, data, file, blockSize) && h.optCnt == 1
    ensures Can(Take(5), h, h', MIN_PREFETCH, file, blockSize) && SpareReady(h', 0, data, file, blockSize)
  {
    var w' := h.w.(cooked := [5]);
    assert h.w.blocks[5 := h.w.blocks[5]] == h.w.blocks;
    PushKeeps(h.w, w', 5, file, blockSize, false, false);
    h' := h.(w := w');
  }

  lemma SpareLinedUp(h: Handle, m: nat, data: Bytes, file: Bytes, blockSize: nat) returns (h': Handle)
    requires SpareReady(h, m, data, file, blockSize) && (5 + m) * blockSize < |file|
    ensures Can(LineUp(5 + m), h, h', MIN_PREFETCH, file, blockSize)
    ensures Underway(h', m, data, file, blockSize) && h'.next == 6 + m && h'.w.cooked == []
    ensures |h'.w.cooking| == 6 && h'.w.cooking[0] == 5 && 5 !in h'.w.cooking[1..] && h'.w.nodes[4] == h'.w.cooking[1]
    ensures Item(5, 0) in h'.w.queue && forall k :: k in h'.w.nodes ==> k < 6 + m
  {
    hide Loading, Open, QueueOk, InFlight, Idle, Placed, Good;
    RefreshKeeps(h.w, 5 + m, file, blockSize, false, false);
    assert h.w.cooked[0] == 5 && h.w.cooked[1..] == [];
    h' := Handle(Refreshed(h.w, 5 + m, blockSize), 6 + m, h.optCnt);
  }

  lemma SpareRead(h: Handle, m: nat, data: Bytes, file: Bytes, blockSize: nat) returns (h': Handle)
    requires Underway(h, m, data, file, blockSize) && blockSize > 0 && Item(5, 0) in h.w.queue
    ensures Can(Try(Item(5, 0), true), h, h', MIN_PREFETCH, file, blockSize)
    ensures Underway(h', m, data, file, blockSize) && h' == h.(w := h.w.(blocks := h'.w.blocks, queue := h'.w.queue))
    ensures h'.w.blocks[5].state == Ready && !h'.w.blocks[5].failed
  {
    var w, x := h.w, Item(5, 0);
    ItemFacts(w, x, file, blockSize, false, false);
    assert InFlight(w, 5, file, blockSize, false) && 5 in QueueBlocks(w.queue);
    var b := w.blocks[5];
    var n := Min(blockSize, |file| - b.offset);
    var bytes := file[b.offset..b.offset + n] + b.data[n..];
    assert bytes[..n] == file[b.offset..b.offset + n];
    var w' := w.(blocks := w.blocks[5 := b.(data := bytes, endIndex := b.offset + n, state := Ready)],
                 queue := w.queue - {x});
    AttemptKeeps(w, w', x, true, file, blockSize, false, false);
    h' := h.(w := w');
  }

  lemma SpareOpened(h: Handle, m: nat, data: Bytes, file: Bytes, blockSize: nat) returns (h': Handle)
    requires Underway(h, m, data, file, blockSize) && h.next == 6 + m && h.w.cooked == [] && |h.w.cooking| == 6
    requires h.w.cooking[0] == 5 && h.w.nodes[4] == h.w.cooking[1] && 5 !in h.w.cooking[1..]
    requires h.w.blocks[5].state == Ready && !h.w.blocks[5].failed && forall k :: k in h.w.nodes ==> k < 6 + m
    ensures Can(FirstReader(0), h, h', MIN_PREFETCH, file, blockSize)
    ensures Adrift(h', m + 1, data, file, blockSize)
  {
    hide Inv, InFlight, Idle, Placed, Good, Mapped;
    ServeKeeps(h.w, 0, file, blockSize, false, false);
    h' := h.(w := Served(h.w, 0));
    assert h'.w.cooking == h.w.cooking[1..];
  }

  /** A run in which a read returns any bytes at all. The file is opened with prefetch, and five blocks go to the
      workers; the last of them is given up. Ten reads elsewhere follow. With the next one reads count as random, the
      handle has six blocks, and the cleanup opens the block that was given up: block 4 of the file reads as
      `data`. */
  lemma GivenUpReads(data: Bytes, file: Bytes, blockSize: nat) returns (hs: seq<Handle>, es: seq<Event>)
    requires |data| == blockSize > 0 && |file| > 15 * blockSize
    ensures Runs(hs, es, MIN_PREFETCH, file, blockSize) && hs[0].w == State(hs[0].w.blocks, map[], [], [], {})
    ensures hs[0].next == 0 == hs[0].optCnt && Last(hs).optCnt == MIN_RANDREAD + 1
    ensures var w := Last(hs).w; Spoilt(w, 4) && w.blocks[w.nodes[4]].data == data
  {
    hide Inv, Can, Ample, Adrift;
    hs, es := FiveTaken(data, file, blockSize);
    hs, es := FiveLinedUp(hs, es, file, blockSize);
    hs, es := GivenUp(hs, es, data, file, blockSize);
    AdriftAtFirst(Last(hs), data, file, blockSize);
    ghost var start := hs[0];
    for m := 0 to 10
      invariant Runs(hs, es, MIN_PREFETCH, file, blockSize) && |hs| > 0 && hs[0] == start
      invariant Adrift(Last(hs), m, data, file, blockSize)
    {
      TimesGrows(5 + m, 15, blockSize);
      hs, es := OneMiss(hs, es, m, data, file, blockSize);
    }
    hs, es := LastMiss(hs, es, data, file, blockSize);
  }

  /** With one more miss reads count as random, and the cleanup runs. */
  lemma LastMiss(hs0: seq<Handle>, es0: seq<Event>, data: Bytes, file: Bytes, blockSize: nat)
    returns (hs: seq<Handle>, es: seq<Event>)
    requires Runs(hs0, es0, MIN_PREFETCH, file, blockSize) && 15 * blockSize < |file|
    requires Adrift(Last(hs0), 10, data, file, blockSize)
    ensures Runs(hs, es, MIN_PREFETCH, file, blockSize) && hs[0] == hs0[0]
    ensures Last(hs).optCnt == 11 && Spoilt(Last(hs).w, 4)
    ensures Last(hs).w.blocks[Last(hs).w.nodes[4]].data == data
  {
    hide Can, Inv;
    var h := Last(hs0);
    var h1 := h.(optCnt := 11);
    MissStep(h, h1, 15, file, blockSize);
    RunMore(hs0, es0, Miss(15), h1, MIN_PREFETCH, file, blockSize);
    hs, es := hs0 + [h1], es0 + [Miss(15)];
    var h2 := CleanedUp(h1, data, file, blockSize);
    RunMore(hs, es, CleanUp, h2, MIN_PREFETCH, file, blockSize);
    hs, es := hs + [h2], es + [CleanUp];
  }

  lemma AdriftAtFirst(h: Handle, data: Bytes, file: Bytes, blockSize: nat)
    requires h.next == 5 && h.optCnt == 0 && Inv(h.w, file, blockSize, false, false) && Ample(h.w, 5, blockSize)
    requires h.w.cooked == [] && |h.w.cooking| == 5 && (forall k :: k in h.w.nodes ==> k < 5) && GaveUp(h.w, data)
    requires 4 in h.w.nodes && h.w.nodes[4] == h.w.cooking[0]
    ensures Adrift(h, 0, data, file, blockSize)
  {
  }

  lemma CleanedUp(h: Handle, data: Bytes, file: Bytes, blockSize: nat) returns (h': Handle)
    requires Adrift(h.(optCnt := 10), 10, data, file, blockSize) && h.optCnt == 11
    ensures Can(CleanUp, h, h', MIN_PREFETCH, file, blockSize) && h'.optCnt == h.optCnt
    ensures Spoilt(h'.w, 4) && h'.w.blocks[h'.w.nodes[4]].data == data
  {
    h' := h.(w := Served(h.w, 0));
    assert h.w.cooking[0] in h'.w.cooked;
  }
}
