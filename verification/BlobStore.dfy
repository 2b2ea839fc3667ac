/** The blob service as the block-blob editor sees it: Put Blob, Put Block, Put Block List and
    Get Block List on one blob. */
module BlobStore {
  import opened FlatFile

  /** Block ids are random UUIDs in the program; here they are drawn from a counter. */
  type Id = nat

  datatype StoredBlock = StoredBlock(id: Id, data: Bytes)

  /** `committed` empty means the blob was written by a single Put Blob and holds `single`. */
  datatype Blob = Blob(single: Bytes, committed: seq<StoredBlock>, uncommitted: map<Id, Bytes>)

  function Flatten(bs: seq<StoredBlock>): Bytes
  {
    if bs == [] then [] else bs[0].data + Flatten(bs[1..])
  }

  function Content(b: Blob): Bytes
  {
    if b.committed == [] then b.single else Flatten(b.committed)
  }

  function IdsOf(bs: seq<StoredBlock>): set<Id> { set i | 0 <= i < |bs| :: bs[i].id }

  ghost predicate DistinctIds(bs: seq<StoredBlock>)
  {
    forall i, j :: 0 <= i < j < |bs| ==> bs[i].id != bs[j].id
  }

  function Find(bs: seq<StoredBlock>, id: Id): Bytes
    requires id in IdsOf(bs)
  {
    if bs[0].id == id then bs[0].data else Find(bs[1..], id)
  }

  predicate Known(b: Blob, id: Id) { id in b.uncommitted || id in IdsOf(b.committed) }

  /** The copy of a block that Put Block List takes: the uncommitted one if there is one. */
  function Latest(b: Blob, id: Id): Bytes
    requires Known(b, id)
  {
    if id in b.uncommitted then b.uncommitted[id] else Find(b.committed, id)
  }

  function PutBlob(data: Bytes): Blob { Blob(data, [], map[]) }

  function PutBlock(b: Blob, id: Id, data: Bytes): Blob
  {
    b.(uncommitted := b.uncommitted[id := data])
  }

  /** Put Block List discards every uncommitted block, listed or not. */
  function PutBlockList(b: Blob, ids: seq<Id>): Blob
    requires forall i :: 0 <= i < |ids| ==> Known(b, ids[i])
  {
    Blob([], seq(|ids|, i requires 0 <= i < |ids| => StoredBlock(ids[i], Latest(b, ids[i]))), map[])
  }

  /** With distinct ids, looking a block up by id finds the block itself. */
  lemma {:induction false} FindAt(bs: seq<StoredBlock>, i: nat)
    requires DistinctIds(bs) && i < |bs|
    ensures bs[i].id in IdsOf(bs) && Find(bs, bs[i].id) == bs[i].data
  {
    if i > 0 {
      assert bs[1..][i - 1] == bs[i];
      FindAt(bs[1..], i - 1);
    }
  }

  lemma {:induction false} FlattenConcat(a: seq<StoredBlock>, b: seq<StoredBlock>)
    ensures Flatten(a + b) == Flatten(a) + Flatten(b)
  {
    if a == [] {
      assert a + b == b;
    } else {
      assert (a + b)[1..] == a[1..] + b;
      FlattenConcat(a[1..], b);
    }
  }

  lemma {:induction false} FlattenSplit(bs: seq<StoredBlock>, i: nat)
    requires i < |bs|
    ensures Flatten(bs[..i + 1]) == Flatten(bs[..i]) + bs[i].data
  {
    assert bs[..i + 1] == bs[..i] + [bs[i]];
    FlattenConcat(bs[..i], [bs[i]]);
  }
}
