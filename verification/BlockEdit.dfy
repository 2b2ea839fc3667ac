/** What staging the dirty blocks of a list and committing the list does to the blob, as a function
    of the list, the buffer and the committed blocks. */
module BlockEdit {
  import opened FlatFile
  import opened BlobStore
  import opened BlockList

  /** No uncommitted copy with other bytes waits under the id of committed block i. */
  ghost predicate NoOther(b: Blob, i: nat)
    requires i < |b.committed|
  {
    var id := b.committed[i].id;
    id in b.uncommitted ==> b.uncommitted[id] == b.committed[i].data
  }

  /** Every clean block of the list is the committed block at the same position. */
  ghost predicate CleanBlocksCommitted(bs: seq<Block>, b: Blob)
  {
    forall i :: 0 <= i < |bs| && !bs[i].dirty ==>
      i < |b.committed| && bs[i].id == b.committed[i].id && NoOther(b, i)
  }

  ghost predicate DistinctBlocks(bs: seq<Block>)
  {
    forall i, j :: 0 <= i < j < |bs| ==> bs[i].id != bs[j].id
  }

  /** Total size of the dirty blocks: how far into the buffer the staging loop has moved. */
  function DirtySize(bs: seq<Block>): int
  {
    if bs == [] then 0
    else DirtySize(bs[..|bs| - 1]) + (if bs[|bs| - 1].dirty then Size(bs[|bs| - 1]) else 0)
  }

  lemma DirtySizeStep(bs: seq<Block>, i: nat)
    requires i < |bs|
    ensures DirtySize(bs[..i + 1]) == DirtySize(bs[..i]) + (if bs[i].dirty then Size(bs[i]) else 0)
  {
    assert bs[..i + 1][..i] == bs[..i];
  }

  lemma {:induction false} DirtySizeGrows(bs: seq<Block>, i: nat, j: nat)
    requires i <= j <= |bs|
    requires forall k :: 0 <= k < |bs| ==> bs[k].start <= bs[k].end
    ensures 0 <= DirtySize(bs[..i]) <= DirtySize(bs[..j])
    decreases j
  {
    if i < j {
      DirtySizeGrows(bs, i, j - 1);
      DirtySizeStep(bs, j - 1);
    } else if i > 0 {
      DirtySizeGrows(bs, i - 1, i - 1);
      DirtySizeStep(bs, i - 1);
    }
  }

  /** buffer[lo:hi], or nothing where that would be out of range. */
  function Cut(buffer: Bytes, lo: int, hi: int): Bytes
  {
    if 0 <= lo <= hi <= |buffer| then buffer[lo..hi] else []
  }

  /** The bytes staged for dirty block i: its slice of the buffer. */
  function Slice(bs: seq<Block>, buffer: Bytes, i: nat): Bytes
    requires i < |bs|
  {
    Cut(buffer, DirtySize(bs[..i]), DirtySize(bs[..i + 1]))
  }

  /** The slice of the next dirty block starts where the slices before it end. */
  lemma NextSlice(bs: seq<Block>, buffer: Bytes, pieces: seq<Bytes>, k: nat)
    requires k < |bs| && DirtySize(bs) <= |buffer| && SlicesOf(pieces, bs, buffer)
    requires forall i :: 0 <= i < |bs| ==> bs[i].start <= bs[i].end
    ensures DirtySize(bs[..k + 1]) == DirtySize(bs[..k]) + (if bs[k].dirty then Size(bs[k]) else 0)
    ensures 0 <= DirtySize(bs[..k]) <= DirtySize(bs[..k + 1]) <= |buffer|
    ensures pieces[k] == buffer[DirtySize(bs[..k])..DirtySize(bs[..k + 1])]
  {
    DirtySizeStep(bs, k);
    DirtySizeGrows(bs, k, k + 1);
    DirtySizeGrows(bs, k + 1, |bs|);
    assert bs[..|bs|] == bs && At(k);
  }

  /** A list whose dirty blocks are exactly those in [lo, hi) and whose blocks below |cs| lie where
      the committed blocks lie. */
  ghost predicate DirtyRun(bs: seq<Block>, cs: seq<StoredBlock>, lo: nat, hi: nat)
  {
    && lo <= hi <= |bs| && |cs| <= |bs| && lo <= |cs|
    && Tiled(bs)
    && (forall i :: 0 <= i < |bs| ==> bs[i].dirty == (lo <= i < hi))
    && (hi < |bs| ==> |cs| == |bs|)
    && (|cs| < |bs| ==> hi == |bs|)
    && (forall i :: 0 <= i < |cs| ==> Size(bs[i]) == |cs[i].data|)
  }

  /** Each committed block after a commit of the list: the piece staged for it, or what was there. */
  ghost predicate Committed(bs: seq<Block>, pieces: seq<Bytes>, cs: seq<StoredBlock>, out: seq<StoredBlock>)
  {
    && |out| == |bs| == |pieces|
    && (forall i :: 0 <= i < |bs| && bs[i].dirty ==> out[i] == StoredBlock(bs[i].id, pieces[i]))
    && (forall i :: 0 <= i < |bs| && !bs[i].dirty ==>
          i < |cs| && out[i] == StoredBlock(bs[i].id, cs[i].data))
  }

  /** The first k blocks of the list have been staged. */
  ghost predicate Staged(bs: seq<Block>, pieces: seq<Bytes>, k: nat, b: Blob)
  {
    && |pieces| == |bs|
    && (forall i :: 0 <= i < |bs| && i < k && bs[i].dirty ==>
          bs[i].id in b.uncommitted && b.uncommitted[bs[i].id] == pieces[i])
    && CleanBlocksCommitted(bs, b)
  }

  lemma StageOne(bs: seq<Block>, pieces: seq<Bytes>, k: nat, b: Blob)
    requires Staged(bs, pieces, k, b) && DistinctBlocks(bs) && k < |bs|
    ensures !bs[k].dirty ==> Staged(bs, pieces, k + 1, b)
    ensures bs[k].dirty ==> Staged(bs, pieces, k + 1, PutBlock(b, bs[k].id, pieces[k]))
  {
  }

  function IdList(bs: seq<Block>): (ids: seq<Id>)
    ensures |ids| == |bs| && forall i :: 0 <= i < |bs| ==> ids[i] == bs[i].id
  {
    seq(|bs|, i requires 0 <= i < |bs| => bs[i].id)
  }

  /** Committing a fully staged list gives every dirty block its piece and keeps every clean one. */
  lemma CommitStaged(bs: seq<Block>, pieces: seq<Bytes>, b: Blob)
    requires Staged(bs, pieces, |bs|, b) && DistinctIds(b.committed)
    ensures forall i :: 0 <= i < |bs| ==> Known(b, IdList(bs)[i])
    ensures Committed(bs, pieces, b.committed, PutBlockList(b, IdList(bs)).committed)
  {
    forall i | 0 <= i < |bs|
      ensures Known(b, bs[i].id)
      ensures Latest(b, bs[i].id) == if bs[i].dirty then pieces[i] else b.committed[i].data
    {
      if !bs[i].dirty { FindAt(b.committed, i); }
    }
  }

  /** Why: a block that is listed and not staged is kept exactly when no other copy waits under its id. */
  lemma KeptUnlessOther(b: Blob, ids: seq<Id>, i: nat, k: nat)
    requires DistinctIds(b.committed) && i < |b.committed| && k < |ids| && ids[k] == b.committed[i].id
    requires forall j :: 0 <= j < |ids| ==> Known(b, ids[j])
    ensures PutBlockList(b, ids).committed[k].data == b.committed[i].data <==> NoOther(b, i)
  {
    FindAt(b.committed, i);
  }

  /** Names an index, so that the slices of a list are looked at one by one. */
  predicate At(i: nat) { true }

  ghost predicate SlicesOf(pieces: seq<Bytes>, bs: seq<Block>, buffer: Bytes)
  {
    |pieces| == |bs| && forall i: nat {:trigger At(i)} :: At(i) && i < |bs| ==> pieces[i] == Slice(bs, buffer, i)
  }

  lemma MakeSlices(bs: seq<Block>, buffer: Bytes) returns (pieces: seq<Bytes>)
    ensures SlicesOf(pieces, bs, buffer)
  {
    pieces := seq(|bs|, i requires 0 <= i < |bs| => Slice(bs, buffer, i));
  }

  lemma {:induction false} CommittedPrefix(bs: seq<Block>, cs: seq<StoredBlock>, k: nat)
    requires Tiled(bs) && k <= |cs| <= |bs|
    requires forall i :: 0 <= i < |cs| ==> Size(bs[i]) == |cs[i].data|
    ensures |Flatten(cs[..k])| == StartOf(bs, k) <= |Flatten(cs)|
    ensures Flatten(cs[..k]) == Flatten(cs)[..StartOf(bs, k)]
  {
    if k > 0 {
      CommittedPrefix(bs, cs, k - 1);
      FlattenSplit(cs, k - 1);
    } else {
      assert cs[..0] == [];
    }
    assert cs == cs[..k] + cs[k..];
    FlattenConcat(cs[..k], cs[k..]);
  }

  /** In a dirty run the buffer position of a block is its distance from the start of the run. */
  lemma {:induction false} RunPosition(bs: seq<Block>, cs: seq<StoredBlock>, lo: nat, hi: nat, k: nat)
    requires DirtyRun(bs, cs, lo, hi) && k <= |bs|
    ensures DirtySize(bs[..k]) == if k <= lo then 0 else if k <= hi then StartOf(bs, k) - StartOf(bs, lo)
                                  else StartOf(bs, hi) - StartOf(bs, lo)
  {
    if k > 0 {
      RunPosition(bs, cs, lo, hi, k - 1);
      DirtySizeStep(bs, k - 1);
      hide DirtySize;
    }
  }

  lemma {:induction false} FlattenSame(a: seq<StoredBlock>, b: seq<StoredBlock>)
    requires |a| == |b| && forall i :: 0 <= i < |a| ==> a[i].data == b[i].data
    ensures Flatten(a) == Flatten(b)
  {
    if a != [] { FlattenSame(a[1..], b[1..]); }
  }

  lemma {:induction false} StartsGrow(bs: seq<Block>, i: nat, j: nat)
    requires Tiled(bs) && i <= j <= |bs|
    ensures 0 <= StartOf(bs, i) <= StartOf(bs, j)
    decreases j
  {
    if i < j {
      StartsGrow(bs, i, j - 1);
    } else if i > 0 {
      StartsGrow(bs, i - 1, i - 1);
    }
  }

  lemma SliceInRun(bs: seq<Block>, buffer: Bytes, cs: seq<StoredBlock>, lo: nat, hi: nat, k: nat)
    requires DirtyRun(bs, cs, lo, hi) && lo <= k < hi
    requires |buffer| == StartOf(bs, hi) - StartOf(bs, lo)
    ensures 0 <= StartOf(bs, k) - StartOf(bs, lo) <= StartOf(bs, k + 1) - StartOf(bs, lo) <= |buffer|
    ensures Slice(bs, buffer, k) == buffer[StartOf(bs, k) - StartOf(bs, lo)..StartOf(bs, k + 1) - StartOf(bs, lo)]
  {
    StartsGrow(bs, lo, k);
    StartsGrow(bs, k, k + 1);
    StartsGrow(bs, k + 1, hi);
    RunPosition(bs, cs, lo, hi, k);
    RunPosition(bs, cs, lo, hi, k + 1);
  }

  /** Piece i of the run is the part of the buffer between cut i and cut i + 1. */
  ghost predicate Piece(run: seq<StoredBlock>, buffer: Bytes, cuts: seq<int>, i: nat)
  {
    && i < |run| && |cuts| == |run| + 1
    && 0 <= cuts[i] <= cuts[i + 1] <= |buffer| && run[i].data == buffer[cuts[i]..cuts[i + 1]]
  }

  /** Slices of a buffer cut at increasing places, put together again. */
  lemma {:induction false} SlicesRejoin(run: seq<StoredBlock>, buffer: Bytes, cuts: seq<int>)
    requires |cuts| == |run| + 1 && cuts[0] == 0
    requires forall i :: 0 <= i < |run| ==> Piece(run, buffer, cuts, i)
    ensures 0 <= cuts[|run|] <= |buffer| && Flatten(run) == buffer[..cuts[|run|]]
    decreases |run|
  {
    if run != [] {
      var n := |run| - 1;
      assert Piece(run, buffer, cuts, n);
      var run', cuts' := run[..n], cuts[..n + 1];
      forall i | 0 <= i < n ensures Piece(run', buffer, cuts', i) { assert Piece(run, buffer, cuts, i); }
      SlicesRejoin(run', buffer, cuts');
      FlattenSplit(run, n);
      assert run[..n + 1] == run;
    }
  }

  lemma FlattenThree(bs: seq<StoredBlock>, lo: nat, hi: nat)
    requires lo <= hi <= |bs|
    ensures Flatten(bs) == Flatten(bs[..lo]) + Flatten(bs[lo..hi]) + Flatten(bs[hi..])
  {
    assert bs == bs[..hi] + bs[hi..];
    FlattenConcat(bs[..hi], bs[hi..]);
    assert bs[..hi] == bs[..lo] + bs[lo..hi];
    FlattenConcat(bs[..lo], bs[lo..hi]);
  }

  lemma CommittedSuffix(bs: seq<Block>, cs: seq<StoredBlock>, k: nat)
    requires Tiled(bs) && k <= |cs| <= |bs|
    requires forall i :: 0 <= i < |cs| ==> Size(bs[i]) == |cs[i].data|
    ensures 0 <= StartOf(bs, k) <= |Flatten(cs)| && Flatten(cs[k..]) == Flatten(cs)[StartOf(bs, k)..]
  {
    CommittedPrefix(bs, cs, k);
    assert cs == cs[..k] + cs[k..];
    FlattenConcat(cs[..k], cs[k..]);
  }

  function Cuts(bs: seq<Block>, lo: nat, hi: nat): (cuts: seq<int>)
    requires lo <= hi <= |bs|
    ensures |cuts| == hi - lo + 1
    ensures forall i :: 0 <= i <= hi - lo ==> cuts[i] == StartOf(bs, lo + i) - StartOf(bs, lo)
  {
    seq(hi - lo + 1, i requires 0 <= i <= hi - lo => StartOf(bs, lo + i) - StartOf(bs, lo))
  }

  lemma RunPiece(bs: seq<Block>, buffer: Bytes, pieces: seq<Bytes>, cs: seq<StoredBlock>, out: seq<StoredBlock>,
                 lo: nat, hi: nat, i: nat)
    requires DirtyRun(bs, cs, lo, hi) && i < hi - lo
    requires |buffer| == StartOf(bs, hi) - StartOf(bs, lo)
    requires SlicesOf(pieces, bs, buffer) && Committed(bs, pieces, cs, out)
    ensures Piece(out[lo..hi], buffer, Cuts(bs, lo, hi), i)
  {
    var cuts, k := Cuts(bs, lo, hi), lo + i;
    var p, q := cuts[i], cuts[i + 1];
    assert 0 <= p <= q <= |buffer| && out[k].data == buffer[p..q] by {
      assert At(k) && bs[k].dirty;
      SliceInRun(bs, buffer, cs, lo, hi, k);
    }
  }

  lemma EditedRun(bs: seq<Block>, buffer: Bytes, pieces: seq<Bytes>, cs: seq<StoredBlock>, out: seq<StoredBlock>,
                  lo: nat, hi: nat)
    requires DirtyRun(bs, cs, lo, hi)
    requires |buffer| == StartOf(bs, hi) - StartOf(bs, lo)
    requires SlicesOf(pieces, bs, buffer) && Committed(bs, pieces, cs, out)
    ensures Flatten(out[lo..hi]) == buffer
  {
    var cuts := Cuts(bs, lo, hi);
    var run := out[lo..hi];
    forall i | 0 <= i < |run| ensures Piece(run, buffer, cuts, i) { RunPiece(bs, buffer, pieces, cs, out, lo, hi, i); }
    SlicesRejoin(run, buffer, cuts);
  }

  lemma EditedRest(bs: seq<Block>, buffer: Bytes, pieces: seq<Bytes>, cs: seq<StoredBlock>, out: seq<StoredBlock>,
                   lo: nat, hi: nat)
    requires DirtyRun(bs, cs, lo, hi)
    requires SlicesOf(pieces, bs, buffer) && Committed(bs, pieces, cs, out)
    ensures Flatten(out[..lo]) == Flatten(cs[..lo])
    ensures Flatten(out[hi..]) == Flatten(cs[Min(hi, |cs|)..])
  {
    FlattenSame(out[..lo], cs[..lo]);
    FlattenSame(out[hi..], cs[Min(hi, |cs|)..]);
  }

  /** The edited blob: committed bytes up to the run, the buffer, committed bytes after the run. */
  lemma EditedContent(bs: seq<Block>, buffer: Bytes, pieces: seq<Bytes>, cs: seq<StoredBlock>, out: seq<StoredBlock>,
                      lo: nat, hi: nat)
    requires DirtyRun(bs, cs, lo, hi)
    requires |buffer| == StartOf(bs, hi) - StartOf(bs, lo)
    requires SlicesOf(pieces, bs, buffer) && Committed(bs, pieces, cs, out)
    ensures var c := Flatten(cs); var tail := Min(hi, |cs|);
      && 0 <= StartOf(bs, lo) <= StartOf(bs, tail) <= |c|
      && Flatten(out) == c[..StartOf(bs, lo)] + buffer + c[StartOf(bs, tail)..]
  {
    var tail := Min(hi, |cs|);
    StartsGrow(bs, lo, tail);
    CommittedPrefix(bs, cs, lo);
    CommittedSuffix(bs, cs, tail);
    EditedRun(bs, buffer, pieces, cs, out, lo, hi);
    EditedRest(bs, buffer, pieces, cs, out, lo, hi);
    FlattenThree(out, lo, hi);
  }
}
