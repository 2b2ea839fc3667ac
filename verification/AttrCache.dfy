/** The attribute cache in front of the storage: positive and negative entries, invalidated or marked
    deleted as the storage changes. */
module AttrCache {
  type Path = string

  datatype Attr = File(size: nat) | Dir

  type Store = map<Path, Attr>

  /** The attributes are meaningful only in a valid entry of something that exists. */
  datatype Entry = Entry(attr: Attr, present: bool, valid: bool)

  type Cache = map<Path, Entry>

  function TruncateDirName(name: Path): Path
  {
    if name == "" then "" else if name[|name| - 1] == '/' then name[..|name| - 1] else name
  }

  function ExtendDirName(name: Path): Path
  {
    if name == "" then "/" else if name[|name| - 1] != '/' then name + "/" else name
  }

  /** A directory is the same with and without its trailing slash, unless it has two. */
  lemma SameDirectory(name: Path)
    ensures TruncateDirName(ExtendDirName(name)) == (if name == "" then "" else TruncateDirName(name))
    ensures Plain(name) ==> TruncateDirName(name) == name && ExtendDirName(name) == name + "/"
    ensures name == "" || name[|name| - 1] != '/' ==>
      TruncateDirName(name + "/") == name && ExtendDirName(name + "/") == ExtendDirName(name)
  {
    if name != "" && name[|name| - 1] != '/' { assert (name + "/")[..|name|] == name; }
  }

  /** A name as the file system gives it: not empty and without trailing slash. */
  predicate Plain(name: Path) { name != "" && name[|name| - 1] != '/' }

  /** Path k is the directory or is in it. */
  predicate Within(k: Path, dir: Path) { k == TruncateDirName(dir) || ExtendDirName(dir) <= k }

  /** Path p is in directory k. */
  predicate Under(p: Path, k: Path) { k + "/" <= p }

  /** A name that only shares the first letters with a directory is not in it. */
  lemma SiblingsApart(dir: Path, more: Path)
    requires dir != "" && dir[|dir| - 1] != '/' && more != "" && more[0] != '/'
    ensures !Within(dir + more, dir) && Within(dir + "/" + more, dir)
  {
    assert (dir + more)[|dir|] == more[0] && (dir + "/")[|dir|] == '/';
    assert (dir + "/" + more)[..|dir| + 1] == dir + "/";
  }

  predicate Inhabited(store: Store, k: Path) { exists p :: p in store && Under(p, k) }

  /** What a lookup in the storage says of a path; with virtual directories a path also is a directory
      when something lies in it. */
  function Lookup(store: Store, k: Path, virtualDirs: bool): (found: (bool, Attr))
  {
    if k in store then (true, store[k]) else (virtualDirs && Inhabited(store, k), Dir)
  }

  ghost predicate Agrees(e: Entry, store: Store, k: Path, virtualDirs: bool)
  {
    e.valid ==>
      && e.present == Lookup(store, k, virtualDirs).0
      && (e.present ==> e.attr == Lookup(store, k, virtualDirs).1)
  }

  ghost predicate Coherent(cache: Cache, store: Store, virtualDirs: bool)
  {
    forall k :: k in cache ==> Agrees(cache[k], store, k, virtualDirs)
  }

  /** The entries in `dull` have become invalid, the others in `dead` say deleted, the rest is the same. */
  ghost predicate Became(cache: Cache, cache': Cache, dead: iset<Path>, dull: iset<Path>)
  {
    cache'.Keys == cache.Keys && forall k :: k in cache ==>
      if k in dull then !cache'[k].valid
      else if k in dead then cache'[k].valid && !cache'[k].present
      else cache'[k] == cache[k]
  }

  /** After a change of the storage, the cache is right about path k. */
  ghost predicate Right(cache: Cache, store: Store, store': Store, dead: iset<Path>, dull: iset<Path>,
                        virtualDirs: bool, k: Path)
  {
    || k !in cache || k in dull
    || (if k in dead then !Lookup(store', k, virtualDirs).0
        else cache[k].valid ==> Lookup(store', k, virtualDirs) == Lookup(store, k, virtualDirs))
  }

  lemma AfterChange(cache: Cache, cache': Cache, store: Store, store': Store, dead: iset<Path>, dull: iset<Path>,
                    virtualDirs: bool)
    requires Coherent(cache, store, virtualDirs) && Became(cache, cache', dead, dull)
    ensures Coherent(cache', store', virtualDirs) <==>
            forall k :: k in cache ==> Right(cache, store, store', dead, dull, virtualDirs, k)
  {
    hide Lookup;
    forall k | k in cache
      ensures Agrees(cache'[k], store', k, virtualDirs) <==> Right(cache, store, store', dead, dull, virtualDirs, k)
    {
      assert Agrees(cache[k], store, k, virtualDirs);
      LookupAbsent(store, k, virtualDirs);
      LookupAbsent(store', k, virtualDirs);
    }
  }

  lemma LookupAbsent(store: Store, k: Path, virtualDirs: bool)
    ensures !Lookup(store, k, virtualDirs).0 ==> Lookup(store, k, virtualDirs).1 == Dir
  {
  }

  /** A cached path above n is not there. */
  ghost predicate MissingAbove(cache: Cache, n: Path)
  {
    exists k :: k in cache && cache[k].valid && !cache[k].present && Under(n, k)
  }

  /** Creating or replacing n: with virtual directories it brings every directory above it into being. */
  lemma AfterPut(cache: Cache, cache': Cache, store: Store, n: Path, a: Attr, virtualDirs: bool)
    requires Coherent(cache, store, virtualDirs) && Became(cache, cache', iset{}, iset{n})
    ensures Coherent(cache', store[n := a], virtualDirs) <==> !(virtualDirs && MissingAbove(cache, n))
  {
    var store' := store[n := a];
    AfterChange(cache, cache', store, store', iset{}, iset{n}, virtualDirs);
    forall k | k in cache
      ensures Right(cache, store, store', iset{}, iset{n}, virtualDirs, k) <==>
              !(virtualDirs && cache[k].valid && !cache[k].present && Under(n, k))
    {
      assert Agrees(cache[k], store, k, virtualDirs);
      PutInhabits(store, n, a, k);
    }
  }

  lemma PutInhabits(store: Store, n: Path, a: Attr, k: Path)
    ensures Inhabited(store[n := a], k) <==> Inhabited(store, k) || Under(n, k)
  {
    if Inhabited(store, k) {
      var p :| p in store && Under(p, k);
      assert p in store[n := a];
    } else if Under(n, k) {
      assert n in store[n := a];
    }
  }

  /** A cached directory that has no marker of its own, and nothing in it but what goes. */
  ghost predicate EmptiedAbove(cache: Cache, store: Store, store': Store, spared: iset<Path>)
  {
    exists k :: k in cache && k !in spared && cache[k].valid && cache[k].present && k !in store && !Inhabited(store', k)
  }

  /** File n has an entry and is a directory's name as well, or it is all there is in a cached directory. */
  ghost predicate DeleteMisleads(cache: Cache, store: Store, n: Path)
  {
    (n in cache && Inhabited(store, n)) || EmptiedAbove(cache, store, store - {n}, iset{n})
  }

  /** Deleting n: with virtual directories it takes along every directory it was the last one in, and does
      not take along a directory of its own name. */
  lemma AfterDelete(cache: Cache, cache': Cache, store: Store, n: Path, virtualDirs: bool)
    requires Coherent(cache, store, virtualDirs) && n in store && Became(cache, cache', iset{n}, iset{})
    ensures Coherent(cache', store - {n}, virtualDirs) <==>
            !(virtualDirs && DeleteMisleads(cache, store, n))
  {
    var store' := store - {n};
    AfterChange(cache, cache', store, store', iset{n}, iset{}, virtualDirs);
    assert Inhabited(store, n) <==> Inhabited(store', n) by { DeleteSelf(store, n); }
    forall k | k in cache
      ensures Right(cache, store, store', iset{n}, iset{}, virtualDirs, k) <==>
        if k == n then !(virtualDirs && Inhabited(store', n))
        else !(virtualDirs && cache[k].valid && cache[k].present && k !in store && !Inhabited(store', k))
    {
      assert Agrees(cache[k], store, k, virtualDirs);
      if Inhabited(store', k) { FewerInhabited(store, store', k); }
    }
  }

  lemma DeleteSelf(store: Store, n: Path)
    ensures Inhabited(store, n) ==> Inhabited(store - {n}, n)
    ensures Inhabited(store - {n}, n) ==> Inhabited(store, n)
  {
    if Inhabited(store, n) {
      var p :| p in store && Under(p, n);
      assert p in store - {n};
    }
    if Inhabited(store - {n}, n) { FewerInhabited(store, store - {n}, n); }
  }

  lemma FewerInhabited(store: Store, store': Store, k: Path)
    requires store'.Keys <= store.Keys && Inhabited(store', k)
    ensures Inhabited(store, k)
  {
    var p :| p in store' && Under(p, k);
    assert p in store;
  }

  /** What a rename of one blob leaves when it goes through: copied, and then deleted under the old name. */
  function Moved(store: Store, src: Path, dst: Path): Store
    requires src in store
  {
    MovedAs(store, src, dst, store[src])
  }

  function MovedAs(store: Store, src: Path, dst: Path, a: Attr): Store { store[dst := a] - {src} }

  function Copied(store: Store, src: Path, whole: bool): Attr
    requires src in store
  {
    if whole then store[src] else Emptied(store[src])
  }

  /** What a copy that was aborted leaves: a blob of no length with the metadata, which is all a marker has. */
  function Emptied(a: Attr): Attr { if a.File? then File(0) else Dir }

  /** The same for the old name, and a directory above the new one that the cache says is not there. */
  ghost predicate MoveMisleads(cache: Cache, store: Store, src: Path, dst: Path)
    requires src in store
  {
    || (src != dst && src in cache && Inhabited(Moved(store, src, dst), src))
    || MissingAbove(cache, dst) || EmptiedAbove(cache, store, Moved(store, src, dst), iset{src, dst})
  }

  /** Renaming src to dst: the two effects together. */
  lemma AfterMove(cache: Cache, cache': Cache, store: Store, src: Path, dst: Path, a: Attr, virtualDirs: bool)
    requires Coherent(cache, store, virtualDirs) && src in store && Became(cache, cache', iset{src}, iset{dst})
    ensures Coherent(cache', MovedAs(store, src, dst, a), virtualDirs) <==>
            !(virtualDirs && MoveMisleads(cache, store, src, dst))
  {
    var store' := MovedAs(store, src, dst, a);
    forall k ensures Inhabited(store', k) <==> Inhabited(Moved(store, src, dst), k) {
      SameInhabited(store', Moved(store, src, dst), k);
    }
    AfterChange(cache, cache', store, store', iset{src}, iset{dst}, virtualDirs);
    forall k | k in cache
      ensures Right(cache, store, store', iset{src}, iset{dst}, virtualDirs, k) <==>
        if k == dst then true
        else if k == src then !(virtualDirs && Inhabited(store', src))
        else !(virtualDirs && cache[k].valid
               && if cache[k].present then k !in store && !Inhabited(store', k) else Under(dst, k))
    {
      assert Agrees(cache[k], store, k, virtualDirs);
      MoveInhabits(store, src, dst, k);
    }
    assert !(virtualDirs && src in cache && cache[src].valid && !cache[src].present) by {
      assert src in cache ==> Agrees(cache[src], store, src, virtualDirs);
    }
  }

  lemma SameInhabited(store: Store, store': Store, k: Path)
    requires store.Keys == store'.Keys
    ensures Inhabited(store, k) <==> Inhabited(store', k)
  {
    if Inhabited(store, k) { FewerInhabited(store', store, k); }
    if Inhabited(store', k) { FewerInhabited(store, store', k); }
  }

  lemma MoveInhabits(store: Store, src: Path, dst: Path, k: Path)
    requires src in store
    ensures Inhabited(Moved(store, src, dst), k) ==> Inhabited(store, k) || (src != dst && Under(dst, k))
    ensures src != dst && Under(dst, k) ==> Inhabited(Moved(store, src, dst), k)
    ensures src == dst && Under(dst, k) ==> Inhabited(store, k)
  {
    var store' := Moved(store, src, dst);
    if Inhabited(store', k) {
      var p :| p in store' && Under(p, k);
      assert p == dst || p in store;
    }
    assert src != dst ==> dst in store';
  }

  /** Some of what was at or in the directory is gone, and nothing else. */
  ghost predicate Shrunk(store: Store, store': Store, dir: Path)
  {
    && (forall k :: k in store' ==> k in store && store'[k] == store[k])
    && (forall k :: k in store && !Within(k, dir) ==> k in store')
  }

  ghost function Region(dir: Path): iset<Path> { iset k | Within(k, dir) }

  /** A path the cache has in the region is still found. */
  ghost predicate LeftBehind(cache: Cache, store: Store, region: iset<Path>, virtualDirs: bool)
  {
    exists k :: k in cache && k in region && Lookup(store, k, virtualDirs).0
  }

  lemma AfterDeleteDir(cache: Cache, cache': Cache, store: Store, store': Store, dir: Path, virtualDirs: bool)
    requires Coherent(cache, store, virtualDirs) && Shrunk(store, store', dir)
    requires Became(cache, cache', Region(dir), iset{})
    ensures Coherent(cache', store', virtualDirs) <==>
            !LeftBehind(cache, store', Region(dir), virtualDirs)
            && !(virtualDirs && EmptiedAbove(cache, store, store', Region(dir)))
  {
    AfterChange(cache, cache', store, store', Region(dir), iset{}, virtualDirs);
    forall k | k in cache && k !in Region(dir)
      ensures Right(cache, store, store', Region(dir), iset{}, virtualDirs, k) <==>
              !(virtualDirs && cache[k].valid && cache[k].present && k !in store && !Inhabited(store', k))
    {
      assert Agrees(cache[k], store, k, virtualDirs);
      if Inhabited(store', k) { FewerInhabited(store, store', k); }
    }
  }

  /** Outside the two directories nothing has changed, and the source holds only what was there. */
  ghost predicate Shifted(store: Store, store': Store, src: Path, dst: Path)
  {
    && (forall k :: !Within(k, src) && !Within(k, dst) ==>
          (k in store <==> k in store') && (k in store ==> store'[k] == store[k]))
    && (forall k :: k in store' && !Within(k, dst) ==> k in store && store'[k] == store[k])
  }

  /** A path the cache says is not there has come to be a directory. */
  ghost predicate AppearedAbove(cache: Cache, store': Store, spared: iset<Path>)
  {
    exists k :: k in cache && k !in spared && cache[k].valid && !cache[k].present && Inhabited(store', k)
  }

  lemma AfterMoveDir(cache: Cache, cache': Cache, store: Store, store': Store, src: Path, dst: Path, virtualDirs: bool)
    requires Coherent(cache, store, virtualDirs) && Shifted(store, store', src, dst)
    requires Became(cache, cache', Region(src), Region(dst))
    ensures Coherent(cache', store', virtualDirs) <==>
            && !LeftBehind(cache, store', Region(src) - Region(dst), virtualDirs)
            && !(virtualDirs && EmptiedAbove(cache, store, store', Region(src) + Region(dst)))
            && !(virtualDirs && AppearedAbove(cache, store', Region(src) + Region(dst)))
  {
    AfterChange(cache, cache', store, store', Region(src), Region(dst), virtualDirs);
    forall k | k in cache && k !in Region(src) + Region(dst)
      ensures Right(cache, store, store', Region(src), Region(dst), virtualDirs, k) <==>
        !(virtualDirs && cache[k].valid
          && if cache[k].present then k !in store && !Inhabited(store', k) else Inhabited(store', k))
    {
      assert Agrees(cache[k], store, k, virtualDirs);
    }
  }

  /** A copy over n that the cache was not told of. */
  lemma AfterCopy(cache: Cache, store: Store, n: Path, a: Attr, virtualDirs: bool)
    requires Coherent(cache, store, virtualDirs)
    ensures Coherent(cache, store[n := a], virtualDirs) <==>
      Fits(cache, n, a) && !(virtualDirs && MissingAbove(cache, n))
  {
    var store' := store[n := a];
    forall k | k in cache
      ensures Agrees(cache[k], store', k, virtualDirs) <==>
              if k == n then Fits(cache, n, a) else !(virtualDirs && cache[k].valid && !cache[k].present && Under(n, k))
    {
      assert Agrees(cache[k], store, k, virtualDirs);
      PutInhabits(store, n, a, k);
    }
    assert !Under(n, n);
  }

  /** No valid entry at n says otherwise. */
  ghost predicate Fits(cache: Cache, n: Path, a: Attr)
  {
    n in cache && cache[n].valid ==> cache[n].present && cache[n].attr == a
  }

  lemma TruncateCoherent(cache: Cache, store: Store, cache': Cache, name: Path, size: nat, virtualDirs: bool)
    requires Coherent(cache, store, virtualDirs) && TruncateDirName(name) in store && store[TruncateDirName(name)].File?
    requires cache' == if name in cache && cache[name].valid && cache[name].present
                       then cache[name := cache[name].(attr := File(size))] else cache
    ensures Coherent(cache', store[TruncateDirName(name) := File(size)], virtualDirs) <==>
            name == TruncateDirName(name) || (Sized(cache, TruncateDirName(name), size) && Sized(cache, name, size))
  {
    var k := TruncateDirName(name);
    var store' := store[k := File(size)];
    forall p | p in cache
      ensures Lookup(store', p, virtualDirs) == if p == k then (true, File(size)) else Lookup(store, p, virtualDirs)
      ensures Agrees(cache[p], store, p, virtualDirs)
    {
      PutInhabits(store, k, File(size), p);
      assert Under(k, p) ==> Inhabited(store, p);
    }
    hide Lookup;
    assert k in cache' ==> (Agrees(cache'[k], store', k, virtualDirs) <==> k == name || Sized(cache, k, size));
    assert name in cache' && name != k ==>
      (Agrees(cache'[name], store', name, virtualDirs) <==> Sized(cache, name, size));
    assert forall p :: p in cache' && p != k && p != name ==> Agrees(cache'[p], store', p, virtualDirs);
  }

  /** No valid entry at k has another size. */
  ghost predicate Sized(cache: Cache, k: Path, size: nat)
  {
    k in cache && cache[k].valid && cache[k].present ==> cache[k].attr == File(size)
  }

  ghost predicate HasPresent(cache: Cache, k: Path) { Cached(cache, k) && cache[k].present }

  ghost predicate Cached(cache: Cache, k: Path) { k in cache && cache[k].valid }

  lemma OneMore(cache: Cache, k: Path, e: Entry)
    ensures |cache[k := e]| <= |cache| + 1
  {
    assert cache[k := e].Keys == cache.Keys + {k};
    assert |cache[k := e]| == |cache[k := e].Keys| && |cache| == |cache.Keys|;
  }

  datatype Answer = Found(attr: Attr) | NotFound | Failed

  /** The answer is the storage's. */
  ghost predicate Tells(answer: Answer, store: Store, k: Path, virtualDirs: bool)
  {
    match answer
    case Found(attr) => Lookup(store, k, virtualDirs) == (true, attr)
    case NotFound => !Lookup(store, k, virtualDirs).0
    case Failed => true
  }

  const MAX_FAIL_COUNT: nat := 20

  /** How one call of a listing ends: a segment, an error, or an error of permission. A directory without marker of
      its own is dropped from the segment when the lookup of its marker ends in anything but "not found". */
  datatype Reply = Segment(listed: set<Path>, dropped: set<Path>) | Outage | Denied

  predicate Shows(r: Reply, name: Path) { r.Segment? && name in r.listed }

  predicate Drops(r: Reply, name: Path) { r.Segment? && name in r.dropped }

  /** As many calls as are put up with, the n-th one the last of them, have failed one after the other. */
  predicate GivesUp(replies: seq<Reply>, n: nat)
  {
    MAX_FAIL_COUNT <= n <= |replies| && forall i :: n - MAX_FAIL_COUNT <= i < n ==> replies[i] == Outage
  }

  /** The calls a lookup by listing can make of a storage, up to the one it stops at. */
  predicate Exchange(store: Store, name: Path, replies: seq<Reply>)
  {
    && replies != []
    && (forall i :: 0 <= i < |replies| - 1 ==> replies[i] != Denied && !Shows(replies[i], name))
    && (forall n :: 0 <= n < |replies| ==> !GivesUp(replies, n))
    && (replies[|replies| - 1] == Outage ==> GivesUp(replies, |replies|))
    && (forall i :: 0 <= i < |replies| ==>
          && (Shows(replies[i], name) ==> Lookup(store, name, true).0)
          && (Drops(replies[i], name) ==> name !in store))
    && (replies[|replies| - 1].Segment? && Lookup(store, name, true).0 ==>
          exists i :: 0 <= i < |replies| && (Shows(replies[i], name) || Drops(replies[i], name)))
  }

  /** Every call of the listing was answered, and the name was not dropped. */
  predicate Smooth(name: Path, replies: seq<Reply>)
  {
    forall i :: 0 <= i < |replies| ==> replies[i].Segment? && !Drops(replies[i], name)
  }

  /** The lookup says "not found" though it has not seen all there is: it gave up, or the name was dropped. */
  predicate Lost(name: Path, replies: seq<Reply>)
  {
    && replies != [] && replies[|replies| - 1] != Denied && !Shows(replies[|replies| - 1], name)
    && (GivesUp(replies, |replies|) || exists i :: 0 <= i < |replies| && Drops(replies[i], name))
  }

  /** What the listing said is not what the storage has under the name without its slash. */
  predicate Misled(store: Store, name: Path, replies: seq<Reply>)
  {
    && replies != [] && replies[|replies| - 1] != Denied
    && var truth := Lookup(store, TruncateDirName(name), true);
       if Lost(name, replies) then truth.0 else Lookup(store, name, true) != truth
  }

  /** For every path that is there: when twenty calls in a row fail, or when the one marker lookup of a directory
      without marker fails, it is said not to be there, and the entry that is then cached is wrong. */
  lemma LookupLost(store: Store, k: Path)
    requires Lookup(store, k, true).0 && k == TruncateDirName(k)
    ensures var outages := seq(MAX_FAIL_COUNT, _ => Outage);
      Exchange(store, k, outages) && Lost(k, outages) && Misled(store, k, outages)
    ensures k !in store ==>
      var once := [Segment({}, {k})];
      Exchange(store, k, once) && Lost(k, once) && Misled(store, k, once)
    ensures !Coherent(map[k := Entry(File(0), false, true)], store, true)
  {
    var outages, once := seq(MAX_FAIL_COUNT, _ => Outage), [Segment({}, {k})];
    assert GivesUp(outages, |outages|) && forall i :: 0 <= i < |outages| ==> outages[i] == Outage;
    assert Drops(once[0], k);
    var cache := map[k := Entry(File(0), false, true)];
    assert k in cache && !Agrees(cache[k], store, k, true);
  }

  /** How a call for one blob ends. */
  datatype Result = Done | Missing | Refused

  function Dead(e: Entry): Entry { Entry(File(0), false, true) }

  function Dull(e: Entry): Entry { Entry(File(0), e.present, false) }

  class AttrCache {
    const maxFiles: nat
    const cacheOnList: bool
    const virtualDirs: bool
    var cacheMap: Cache
    var store: Store    // what the storage holds
    ghost var faults: nat     // storage calls that have failed
    ghost var lookups: nat    // lookups the storage was asked for

    ghost predicate Valid()
      reads this
    {
      Coherent(cacheMap, store, virtualDirs)
    }

    constructor (maxFiles: nat, cacheOnList: bool, virtualDirs: bool, store: Store)
      ensures Valid() && this.store == store && cacheMap == map[] && this.virtualDirs == virtualDirs
      ensures this.maxFiles == maxFiles && this.cacheOnList == cacheOnList
    {
      faults, lookups := 0, 0;
      this.maxFiles, this.cacheOnList, this.virtualDirs := maxFiles, cacheOnList, virtualDirs;
      this.store, cacheMap := store, map[];
    }

    // ---- storage calls ----

    method DeleteBlob(k: Path) returns (res: Result)
      modifies this`store, this`faults
      ensures res == Done ==> k in old(store) && store == old(store) - {k}
      ensures res != Done ==> store == old(store) && (res == Missing ==> k !in store)
      ensures faults == old(faults) + (if res == Refused then 1 else 0)
    {
      res := Refused;
      if k !in store {
        if * { res := Missing; }
      } else if * {
        store := store - {k};
        res := Done;
      }
      if res == Refused { faults := faults + 1; }
    }

    /** RenameFile of the storage: a copy and then a delete, either of which may fail. The delete also follows a copy
        that was started and then ended otherwise than with success. */
    method RenameBlob(src: Path, dst: Path) returns (res: Result, whole: bool)
      modifies this`store, this`faults
      ensures res == Done ==>
        src in old(store) && store == MovedAs(old(store), src, dst, Copied(old(store), src, whole))
      ensures res == Missing ==> src !in store && store == old(store)
      ensures res == Refused ==>
        || store == old(store)
        || (src in old(store) && store == old(store)[dst := Copied(old(store), src, whole)])
      ensures faults == old(faults) + (if res == Refused || !whole then 1 else 0)
    {
      res, whole := Refused, true;
      if src !in store {
        if * { res := Missing; }
      } else if * {
        whole := *;
        store := store[dst := Copied(store, src, whole)];
        if * {
          store := store - {src};
          res := Done;
        }
      }
      if res == Refused || !whole { faults := faults + 1; }
    }

    /** DeleteDirectory of the storage: blob by blob, and last the marker. An error for a blob is only logged,
        and leaves it behind; one for the listing or the marker is reported. */
    method DeleteBlobs(dir: Path) returns (ok: bool, left: bool)
      modifies this`store, this`faults
      ensures Shrunk(old(store), store, dir)
      ensures ok ==> TruncateDirName(dir) in old(store) && TruncateDirName(dir) !in store
      ensures ok && !left ==> forall k :: Within(k, dir) ==> k !in store
      ensures faults >= old(faults) && (faults == old(faults) ==> !left && (ok <==> TruncateDirName(dir) in old(store)))
    {
      MarkerApart(dir);
      hide TruncateDirName, ExtendDirName, Shrunk, Within;
      ShrinksNone(store, dir);
      var todo := set k | k in store && ExtendDirName(dir) <= k;
      left := false;
      while todo != {}
        invariant Shrunk(old(store), store, dir) && forall k :: k in todo ==> ExtendDirName(dir) <= k
        invariant !left ==> forall k :: k in store && ExtendDirName(dir) <= k ==> k in todo
        invariant forall k :: k in todo ==> k in store
        invariant faults >= old(faults) && (left ==> faults > old(faults))
        invariant TruncateDirName(dir) in store <==> TruncateDirName(dir) in old(store)
        decreases |todo|
      {
        if * {
          faults := faults + 1;
          return false, left;
        }
        var k :| k in todo;
        ShrinksOne(old(store), store, dir, k);
        var res := DeleteBlob(k);
        left := left || res != Done;
        todo := todo - {k};
      }
      ShrinksOne(old(store), store, dir, TruncateDirName(dir));
      var res := DeleteBlob(TruncateDirName(dir));
      ok := res == Done;
      NothingWithin(store, dir);
    }

    /** RenameDirectory of the storage, in the same way; `left` says that some blob was not moved whole. A source
        without marker is fine if something was in it. */
    method RenameBlobs(src: Path, dst: Path) returns (ok: bool, left: bool)
      requires Plain(src) && Plain(dst)
      modifies this`store, this`faults
      ensures Shifted(old(store), store, src, dst)
      ensures ok && !left && Disjoint(src, dst) ==>
        Relocated(old(store), store, src, dst) && Transplanted(old(store), store, src, dst)
      ensures faults >= old(faults)
      ensures faults == old(faults) && Disjoint(src, dst) ==>
        !left && (ok <==> src in old(store) || Inhabited(old(store), src))
    {
      hide Shifted, Relocating, Transplanted;
      ShiftsNone(store, src, dst);
      var todo := set k | k in store && Under(k, src);
      var some := todo != {};
      left := false;
      ghost var done := {};
      while todo != {}
        invariant Shifted(old(store), store, src, dst) && forall k :: k in todo ==> Under(k, src)
        invariant !left && Disjoint(src, dst) ==> Relocating(old(store), store, src, dst, done)
        invariant forall k :: k in done ==> Under(k, src) && k !in todo && k in old(store)
        invariant forall k :: k in todo ==> k in old(store)
        invariant !left && Disjoint(src, dst) ==> forall k :: k in old(store) && Under(k, src) ==>
          k in todo || k in done
        invariant faults >= old(faults) && (left && Disjoint(src, dst) ==> faults > old(faults))
        decreases |todo|
      {
        if * {
          faults := faults + 1;
          return false, left;
        }
        var k :| k in todo;
        ghost var tidy := !left && Disjoint(src, dst);
        var res, whole := RenameOne(old(store), k, src, dst, done, tidy);
        left := left || res != Done || !whole;
        todo, done := todo - {k}, done + {k};
      }
      ghost var tidy := !left && Disjoint(src, dst) && src in old(store);
      assert src !in done;
      SourceGone(old(store), store, src, dst);
      var res, whole := RenameOne(old(store), src, src, dst, done, tidy);
      left := left || (res == Done && !whole);
      ok := res == Done || (res == Missing && some);
      assert tidy ==> done + {src} == set k | k in old(store) && Within(k, src);
      assert !left && Disjoint(src, dst) && !tidy ==> done == set k | k in old(store) && Within(k, src);
      if ok && !left && Disjoint(src, dst) { MovesAll(old(store), store, src, dst); }
    }

    method RenameOne(ghost was: Store, k: Path, src: Path, dst: Path, ghost done: set<Path>,
                     ghost tidy: bool) returns (res: Result, whole: bool)
      requires Plain(src) && Plain(dst) && Within(k, src)
      requires Shifted(was, store, src, dst)
      requires tidy ==> Disjoint(src, dst) && Relocating(was, store, src, dst, done) && k in was && k !in done
      modifies this`store, this`faults
      ensures Shifted(was, store, src, dst)
      ensures tidy ==> res != Missing && (res == Done && whole ==> Relocating(was, store, src, dst, done + {k}))
      ensures k !in old(store) ==> res != Done && store == old(store)
      ensures faults >= old(faults) && (res == Refused || !whole ==> faults > old(faults))
      ensures res == Missing ==> k !in old(store)
    {
      hide Shifted, Relocating, Within, Under;
      TargetWithin(k, src, dst);
      if tidy { RelocatesOne(was, store, src, dst, done, k); }
      res, whole := RenameBlob(k, Target(k, src, dst));
      ghost var a := if k in old(store) then Copied(old(store), k, whole) else Dir;
      ShiftsOne(was, old(store), store, src, dst, k, Target(k, src, dst), a);
    }

    // ---- helpers on the map ----

    /** Applies `markDeleted` or `invalidate` to every entry whose path starts with the prefix. */
    method MarkUnder(prefix: Path, dead: bool)
      modifies this`cacheMap
      ensures if dead then Became(old(cacheMap), cacheMap, Past(prefix, {}), iset{})
              else Became(old(cacheMap), cacheMap, iset{}, Past(prefix, {}))
    {
      var todo := cacheMap.Keys;
      while todo != {}
        invariant todo <= cacheMap.Keys == old(cacheMap).Keys
        invariant forall k :: k in cacheMap && k in todo ==> cacheMap[k] == old(cacheMap)[k]
        invariant if dead then Became(old(cacheMap), cacheMap, Past(prefix, todo), iset{})
                  else Became(old(cacheMap), cacheMap, iset{}, Past(prefix, todo))
        decreases |todo|
      {
        var k :| k in todo;
        if prefix <= k { cacheMap := cacheMap[k := if dead then Dead(cacheMap[k]) else Dull(cacheMap[k])]; }
        todo := todo - {k};
      }
    }

    /** deletePath: the entry of the path, and no other, now says that there is nothing. */
    method DeletePath(path: Path)
      modifies this`cacheMap
      ensures Became(old(cacheMap), cacheMap, iset{TruncateDirName(path)}, iset{})
    {
      var k := TruncateDirName(path);
      if k in cacheMap { cacheMap := cacheMap[k := Dead(cacheMap[k])]; }
    }

    /** invalidatePath: the entry of the path, and no other, is no longer used. */
    method InvalidatePath(path: Path)
      modifies this`cacheMap
      ensures Became(old(cacheMap), cacheMap, iset{}, iset{TruncateDirName(path)})
    {
      var k := TruncateDirName(path);
      if k in cacheMap { cacheMap := cacheMap[k := Dull(cacheMap[k])]; }
    }

    /** deleteDirectory: the entries at or in the directory, and no others, say that there is nothing. */
    method DeleteDirectory(path: Path)
      modifies this`cacheMap
      ensures Became(old(cacheMap), cacheMap, Region(path), iset{})
    {
      MarkUnder(ExtendDirName(path), true);
      DeletePath(path);
    }

    /** invalidateDirectory: the entries at or in the directory, and no others, are no longer used. */
    method InvalidateDirectory(path: Path)
      modifies this`cacheMap
      ensures Became(old(cacheMap), cacheMap, iset{}, Region(path))
    {
      MarkUnder(ExtendDirName(path), false);
      InvalidatePath(path);
    }

    // ---- operations ----

    /** getAttrUsingList: errors are counted as long as they come one after the other, and the error that ends the
        counting is not the one the function looks at last, so that "not found" is returned. */
    method GetAttrUsingList(name: Path) returns (answer: Answer, replies: seq<Reply>)
      modifies this`faults
      ensures faults == old(faults) + (if Smooth(name, replies) then 0 else 1)
      ensures Exchange(store, name, replies)
      ensures answer == Failed <==> replies[|replies| - 1] == Denied
      ensures Tells(answer, store, name, true) <==> !(Lost(name, replies) && Lookup(store, name, true).0)
      ensures Lost(name, replies) ==> answer == NotFound
    {
      assert Exchange(store, name, [Segment(if Lookup(store, name, true).0 then {name} else {}, {})]);
      replies :| Exchange(store, name, replies);
      if !Smooth(name, replies) { faults := faults + 1; }
      var failCount, n := 0, 0;
      while n < |replies| && failCount < MAX_FAIL_COUNT
        invariant failCount <= n <= |replies| && failCount <= MAX_FAIL_COUNT
        invariant faults == old(faults) + (if Smooth(name, replies) then 0 else 1)
        invariant forall i :: n - failCount <= i < n ==> replies[i] == Outage
        invariant failCount < n ==> replies[n - failCount - 1] != Outage
        invariant forall i :: 0 <= i < n ==> replies[i] != Denied && !Shows(replies[i], name)
      {
        match replies[n] {
          case Outage => failCount := failCount + 1;
          case Denied => return Failed, replies;
          case Segment(listed, _) =>
            failCount := 0;
            if name in listed { return Found(Lookup(store, name, true).1), replies; }
        }
        n := n + 1;
      }
      answer := NotFound;
      CountsFailures(replies, n, failCount);
    }

    /** GetAttr of the storage. */
    method StorageAttr(name: Path) returns (answer: Answer, replies: seq<Reply>)
      modifies this`faults, this`lookups
      ensures lookups == old(lookups) + 1
      ensures faults >= old(faults) && (faults == old(faults) ==> answer != Failed && !Lost(name, replies))
      ensures replies != [] ==> virtualDirs && Exchange(store, name, replies)
      ensures Tells(answer, store, TruncateDirName(name), virtualDirs) <==> !Misled(store, name, replies)
      ensures Lost(name, replies) ==> answer == NotFound
    {
      replies := [];
      lookups := lookups + 1;
      if virtualDirs {
        answer, replies := GetAttrUsingList(name);
      } else if * {
        answer := Failed;
        faults := faults + 1;
      } else {
        var found := Lookup(store, TruncateDirName(name), false);
        answer := if found.0 then Found(found.1) else NotFound;
      }
    }

    /** GetAttr: a valid entry that is young enough, and has all that is asked for, as `current` says, is the answer,
        and the storage is not asked. Otherwise the storage is, and whatever the cache held, the answer is the
        storage's exactly when the listing did not mislead, and replaces the entry, room permitting. So the answer of a
        coherent cache is the storage's, and the cache stays right, exactly when the listing did not mislead. */
    method GetAttr(name: Path, current: bool) returns (answer: Answer, replies: seq<Reply>)
      modifies this`cacheMap, this`faults, this`lookups
      ensures replies != [] ==> virtualDirs && Exchange(store, name, replies)
      ensures Lost(name, replies) ==> answer == NotFound
      ensures faults >= old(faults) && (faults == old(faults) ==> answer != Failed && !Lost(name, replies))
      ensures var k := TruncateDirName(name);
        if current && Cached(old(cacheMap), k)
        then && answer == (if old(cacheMap)[k].present then Found(old(cacheMap)[k].attr) else NotFound)
             && cacheMap == old(cacheMap) && lookups == old(lookups) && replies == []
        else && lookups == old(lookups) + 1
             && (Tells(answer, store, k, virtualDirs) <==> !Misled(store, name, replies))
             && (Tells(answer, store, k, virtualDirs) && answer != Failed
                 && (answer == NotFound || |old(cacheMap)| < maxFiles) ==>
                   Cached(cacheMap, k) && Agrees(cacheMap[k], store, k, virtualDirs))
      ensures old(Valid()) ==>
        (Tells(answer, store, TruncateDirName(name), virtualDirs) <==> !Misled(store, name, replies))
      ensures old(Valid()) ==>
        (Valid() <==> !(Misled(store, name, replies) && (answer == NotFound || |old(cacheMap)| < maxFiles)))
      ensures var k := TruncateDirName(name);
        && (answer == NotFound ==> Cached(cacheMap, k) && !cacheMap[k].present)
        && (answer.Found? && |old(cacheMap)| < maxFiles ==> Cached(cacheMap, k) && cacheMap[k].present)
        && cacheMap - {k} == old(cacheMap) - {k}
      ensures |cacheMap| <= |old(cacheMap)| + 1
    {
      hide Lookup, Lost, Exchange, Misled;
      var k := TruncateDirName(name);
      assert old(Valid()) && k in cacheMap ==> Agrees(cacheMap[k], store, k, virtualDirs);
      if k in cacheMap && cacheMap[k].valid && current {
        NotMisled(store, name);
        return if cacheMap[k].present then Found(cacheMap[k].attr) else NotFound, [];
      }
      answer, replies := StorageAttr(name);
      match answer {
        case Found(attr) =>
          OneMore(cacheMap, k, Entry(attr, true, true));
          if |cacheMap| < maxFiles { cacheMap := cacheMap[k := Entry(attr, true, true)]; }
        case NotFound =>
          OneMore(cacheMap, k, Entry(File(0), false, true));
          cacheMap := cacheMap[k := Entry(File(0), false, true)];
        case Failed =>
      }
      LearntAgrees(store, k, answer, virtualDirs);
      if old(Valid()) { AfterLookup(old(cacheMap), cacheMap, store, k, answer, virtualDirs); }
    }

    /** Recovery: whatever is wrong with the cache, it is right again once the wrong entries have expired and been
        looked up, as long as no call fails and there is room. */
    method LookUpAll(names: seq<Path>)
      requires forall i :: 0 <= i < |names| ==> Plain(names[i])
      modifies this`cacheMap, this`faults, this`lookups
      ensures faults >= old(faults)
      ensures faults == old(faults) && |old(cacheMap)| + |names| <= maxFiles ==>
        && (forall i :: 0 <= i < |names| ==>
              Cached(cacheMap, names[i]) && Agrees(cacheMap[names[i]], store, names[i], virtualDirs))
        && ((forall k :: k in old(cacheMap) && !Agrees(old(cacheMap)[k], store, k, virtualDirs) ==> k in names) ==>
              Valid())
    {
      hide Lookup, Exchange, Agrees, Tells, Lost, Misled;
      for i := 0 to |names|
        invariant faults >= old(faults) && |cacheMap| <= |old(cacheMap)| + i
        invariant faults == old(faults) && |old(cacheMap)| + |names| <= maxFiles ==>
          && (forall j :: 0 <= j < i ==>
                Cached(cacheMap, names[j]) && Agrees(cacheMap[names[j]], store, names[j], virtualDirs))
          && (forall k :: k in cacheMap && k !in names[..i] ==> k in old(cacheMap) && cacheMap[k] == old(cacheMap)[k])
      {
        ghost var was := cacheMap;
        var answer, replies := GetAttr(names[i], false);
        PlainTells(answer, store, names[i], replies, virtualDirs);
        OneChanged(was, cacheMap, names[i]);
        assert names[..i + 1] == names[..i] + [names[i]];
      }
      assert names[..|names|] == names;
    }

    /** ReadDir and StreamDir: what the storage lists, virtual directories among it, may be cached. */
    method CacheAttributes(paths: seq<Path>)
      requires forall i :: 0 <= i < |paths| ==> Lookup(store, TruncateDirName(paths[i]), virtualDirs).0
      modifies this`cacheMap
      ensures old(Valid()) ==> Valid()
      ensures cacheOnList && |old(cacheMap)| + |paths| <= maxFiles ==>
        forall i :: 0 <= i < |paths| ==> HasPresent(cacheMap, TruncateDirName(paths[i]))
      ensures !cacheOnList ==> cacheMap == old(cacheMap)
      ensures forall k :: k in cacheMap && !(k in old(cacheMap) && cacheMap[k] == old(cacheMap)[k]) ==>
        HasPresent(cacheMap, k) && Agrees(cacheMap[k], store, k, virtualDirs)
        && exists i :: 0 <= i < |paths| && TruncateDirName(paths[i]) == k
      ensures forall k :: k in old(cacheMap) ==> k in cacheMap
    {
      hide Lookup;
      if !cacheOnList { return; }
      for i := 0 to |paths|
        invariant old(Valid()) ==> Valid()
        invariant |cacheMap| <= |old(cacheMap)| + i
        invariant forall j :: 0 <= j < i ==>
          HasPresent(cacheMap, TruncateDirName(paths[j]))
        invariant forall k :: k in cacheMap && !(k in old(cacheMap) && cacheMap[k] == old(cacheMap)[k]) ==>
          HasPresent(cacheMap, k) && Agrees(cacheMap[k], store, k, virtualDirs)
          && exists j :: 0 <= j < i && TruncateDirName(paths[j]) == k
        invariant forall k :: k in old(cacheMap) ==> k in cacheMap
      {
        if |cacheMap| > maxFiles { break; }
        var k := TruncateDirName(paths[i]);
        var e := Entry(Lookup(store, k, virtualDirs).1, true, true);
        OneMore(cacheMap, k, e);
        cacheMap := cacheMap[k := e];
      }
    }

    /** CreateDir: an existing directory is invalidated as well. The cache stays right exactly when it has no
        negative entry that virtual directories make wrong. */
    method CreateDir(name: Path) returns (ok: bool)
      modifies this
      ensures store == if ok then old(store)[TruncateDirName(name) := Dir] else old(store)
      ensures old(Valid()) ==> (Valid() <==> !(ok && virtualDirs && MissingAbove(old(cacheMap), TruncateDirName(name))))
      ensures Became(old(cacheMap), cacheMap, iset{}, iset{TruncateDirName(name)}) || (!ok && cacheMap == old(cacheMap))
      ensures faults == old(faults) + (if ok then 0 else 1)
    {
      var k := TruncateDirName(name);
      ok := *;
      var alreadyThere := *;
      if !ok { faults := faults + 1; }
      if ok { store := store[k := Dir]; }
      if ok || alreadyThere { InvalidatePath(name); }
      if old(Valid()) {
        if ok { AfterPut(old(cacheMap), cacheMap, old(store), k, Dir, virtualDirs); }
      }
    }

    /** CreateFile, SyncFile, FlushFile, CommitData and CreateLink, which leave the file as the storage now has it. */
    method ChangeFile(name: Path, size: nat) returns (ok: bool)
      modifies this
      ensures store == if ok then old(store)[TruncateDirName(name) := File(size)] else old(store)
      ensures old(Valid()) ==> (Valid() <==> !(ok && virtualDirs && MissingAbove(old(cacheMap), TruncateDirName(name))))
      ensures if ok then Became(old(cacheMap), cacheMap, iset{}, iset{TruncateDirName(name)})
              else cacheMap == old(cacheMap)
      ensures faults == old(faults) + (if ok then 0 else 1)
    {
      ok := *;
      if !ok { faults := faults + 1; }
      if ok {
        store := store[TruncateDirName(name) := File(size)];
        InvalidatePath(name);
        if old(Valid()) {
          AfterPut(old(cacheMap), cacheMap, old(store), TruncateDirName(name), File(size), virtualDirs);
        }
      }
    }

    /** WriteFile and CopyFromFile: they look the file up first. What a misleading lookup has cached is set right when
        they succeed. */
    method WriteFile(name: Path, size: nat, current: bool) returns (ok: bool, replies: seq<Reply>)
      modifies this
      ensures store == if ok then old(store)[TruncateDirName(name) := File(size)] else old(store)
      ensures replies != [] ==> virtualDirs && Exchange(old(store), name, replies)
      ensures ok && old(Valid()) ==>
        (Valid() <==> !(virtualDirs && MissingAbove(old(cacheMap), TruncateDirName(name))))
      ensures !ok && old(Valid()) && !Misled(old(store), name, replies) ==> Valid()
      ensures !ok && old(Valid()) && Lost(name, replies) ==> (Valid() <==> !Misled(old(store), name, replies))
      ensures faults >= old(faults) && (faults == old(faults) ==> ok)
    {
      hide Lookup, Lost, Exchange, Misled;
      var k, answer := TruncateDirName(name), Failed;
      answer, replies := GetAttr(name, current);
      ok := false;
      if answer != Failed {
        LookedUp(old(cacheMap), cacheMap, k);
        ghost var was := cacheMap;
        ok := ChangeFile(name, size);
        if ok && old(Valid()) {
          RestCoherent(old(cacheMap), was, old(store), k, virtualDirs);
          Healed(was, cacheMap, old(store), k, File(size), virtualDirs);
        }
      }
    }

    /** DeleteFile. The cache stays right exactly when no virtual directory ends or begins with the file. */
    method DeleteFile(name: Path) returns (ok: bool)
      modifies this
      ensures var k := TruncateDirName(name);
        && (ok ==> k in old(store) && store == old(store) - {k} && Became(old(cacheMap), cacheMap, iset{k}, iset{}))
        && (!ok ==> store == old(store) && cacheMap == old(cacheMap))
        && (old(Valid()) ==> (Valid() <==> !(ok && virtualDirs && DeleteMisleads(old(cacheMap), old(store), k))))
        && faults >= old(faults) && (faults == old(faults) ==> (ok <==> k in old(store)))
    {
      var res := DeleteBlob(TruncateDirName(name));
      ok := res == Done;
      if ok {
        DeletePath(name);
        if old(Valid()) { AfterDelete(old(cacheMap), cacheMap, old(store), TruncateDirName(name), virtualDirs); }
      }
    }

    /** RenameFile. When the storage has copied the file and then fails to delete it, the cache is not told of
        the copy. */
    method RenameFile(src: Path, dst: Path) returns (ok: bool, whole: bool)
      modifies this
      ensures var s, d := TruncateDirName(src), TruncateDirName(dst);
        && (ok ==> s in old(store) && store == MovedAs(old(store), s, d, Copied(old(store), s, whole)))
        && (ok ==> Became(old(cacheMap), cacheMap, iset{s}, iset{d}))
        && (ok && old(Valid()) ==> (Valid() <==> !(virtualDirs && MoveMisleads(old(cacheMap), old(store), s, d))))
        && (!ok ==> cacheMap == old(cacheMap))
        && (!ok ==>
              store == old(store) || (s in old(store) && store == old(store)[d := Copied(old(store), s, whole)]))
        && (!ok && s in old(store) && store == old(store)[d := Copied(old(store), s, whole)] && old(Valid()) ==>
              (Valid() <==>
                && Fits(old(cacheMap), d, Copied(old(store), s, whole))
                && !(virtualDirs && MissingAbove(old(cacheMap), d))))
        && faults >= old(faults) && (faults == old(faults) ==> whole && (ok <==> s in old(store)))
        && (ok && whole && s != d ==> s !in store && d in store && store[d] == old(store)[s])
    {
      var s, d := TruncateDirName(src), TruncateDirName(dst);
      var res;
      res, whole := RenameBlob(s, d);
      ok := res == Done;
      if ok {
        DeletePath(src);
        InvalidatePath(dst);
        if old(Valid()) {
          AfterMove(old(cacheMap), cacheMap, old(store), s, d, Copied(old(store), s, whole), virtualDirs);
        }
      } else if old(Valid()) {
        if s in old(store) { AfterCopy(cacheMap, old(store), d, Copied(old(store), s, whole), virtualDirs); }
      }
    }

    /** DeleteDir. Blobs that could not be deleted stay, and the cache says they are gone; a directory without
        marker is emptied, and the cache is not told. */
    method DeleteDir(name: Path) returns (ok: bool, left: bool)
      modifies this
      ensures Shrunk(old(store), store, name) && (ok && !left ==> forall k :: Within(k, name) ==> k !in store)
      ensures if ok then Became(old(cacheMap), cacheMap, Region(name), iset{}) else cacheMap == old(cacheMap)
      ensures ok && old(Valid()) ==> (Valid() <==>
        && !LeftBehind(old(cacheMap), store, Region(name), virtualDirs)
        && !(virtualDirs && EmptiedAbove(old(cacheMap), old(store), store, Region(name))))
      ensures !ok && old(Valid()) ==> (Valid() <==>
        forall k :: k in cacheMap && cacheMap[k].valid ==>
          Lookup(store, k, virtualDirs) == Lookup(old(store), k, virtualDirs))
      ensures faults >= old(faults)
      ensures faults == old(faults) ==> !left && (ok <==> TruncateDirName(name) in old(store))
    {
      ok, left := DeleteBlobs(name);
      if ok {
        DeleteDirectory(name);
        if old(Valid()) { AfterDeleteDir(old(cacheMap), cacheMap, old(store), store, name, virtualDirs); }
      } else if old(Valid()) {
        Untold(cacheMap, old(store), store, virtualDirs);
      }
    }

    /** RenameDir, whatever part of it the storage carried out. */
    method RenameDir(src: Path, dst: Path) returns (ok: bool, left: bool)
      requires Plain(src) && Plain(dst)
      modifies this
      ensures Shifted(old(store), store, src, dst)
      ensures ok && !left && Disjoint(src, dst) ==>
        Relocated(old(store), store, src, dst) && Transplanted(old(store), store, src, dst)
      ensures faults >= old(faults)
      ensures faults == old(faults) && Disjoint(src, dst) ==>
        !left && (ok <==> src in old(store) || Inhabited(old(store), src))
      ensures if ok then Became(old(cacheMap), cacheMap, Region(src), Region(dst)) else cacheMap == old(cacheMap)
      ensures ok && old(Valid()) ==> (Valid() <==>
        && !LeftBehind(old(cacheMap), store, Region(src) - Region(dst), virtualDirs)
        && !(virtualDirs && EmptiedAbove(old(cacheMap), old(store), store, Region(src) + Region(dst)))
        && !(virtualDirs && AppearedAbove(old(cacheMap), store, Region(src) + Region(dst))))
      ensures !ok && old(Valid()) ==> (Valid() <==>
        forall k :: k in cacheMap && cacheMap[k].valid ==>
          Lookup(store, k, virtualDirs) == Lookup(old(store), k, virtualDirs))
    {
      ok, left := RenameBlobs(src, dst);
      if ok {
        DeleteDirectory(src);
        InvalidateDirectory(dst);
        if old(Valid()) { AfterMoveDir(old(cacheMap), cacheMap, old(store), store, src, dst, virtualDirs); }
      } else if old(Valid()) {
        Untold(cacheMap, old(store), store, virtualDirs);
      }
    }

    /** SyncDir: the storage does nothing, and the directory is read again. */
    method SyncDir(name: Path)
      modifies this`cacheMap
      ensures old(Valid()) ==> Valid()
      ensures Became(old(cacheMap), cacheMap, iset{}, Region(name))
    {
      InvalidateDirectory(name);
    }

    /** TruncateFile looks the entry up under the name as given. The cache stays right exactly when that
        is the name entries are kept under, or the sizes happen to be right already. */
    method TruncateFile(name: Path, size: nat) returns (ok: bool)
      modifies this
      ensures var k := TruncateDirName(name);
        && (ok ==> k in old(store) && old(store)[k].File? && store == old(store)[k := File(size)])
        && (!ok ==> store == old(store) && cacheMap == old(cacheMap))
        && (old(Valid()) ==>
              (Valid() <==> !ok || name == k || (Sized(old(cacheMap), k, size) && Sized(old(cacheMap), name, size))))
        && faults >= old(faults) && (faults == old(faults) ==> (ok <==> k in old(store) && old(store)[k].File?))
    {
      var k := TruncateDirName(name);
      ok := *;
      if !ok { faults := faults + 1; }
      ok := ok && k in store && store[k].File?;
      if ok {
        store := store[k := File(size)];
        if name in cacheMap && cacheMap[name].valid && cacheMap[name].present {
          cacheMap := cacheMap[name := cacheMap[name].(attr := File(size))];
        }
        if old(Valid()) { TruncateCoherent(old(cacheMap), old(store), cacheMap, name, size, virtualDirs); }
      }
    }

    /** One operation of a run. */
    method Apply(op: Op) returns (out: Outcome)
      requires op.RenameTree? ==> Plain(op.src) && Plain(op.dst)
      modifies this
      ensures StoreStep(op, out, old(store), store)
      ensures old(Valid()) && Kept(old(store), virtualDirs) && Proper(old(store), op, virtualDirs)
              && Clean(op, out, old(store), store) ==>
        && Valid() && Kept(store, virtualDirs)
        && (op.Look? ==> Tells(out.answer, old(store), TruncateDirName(op.name), virtualDirs))
      ensures Fresh(op, out, old(store), virtualDirs)
      ensures faults >= old(faults) && (faults == old(faults) ==> Answered(op, out, old(store)))
    {
      hide Transplanted, Inhabited, Disjoint;
      hide Coherent, Became, Marked, Shifted, Shrunk, Relocated, Lookup, Above, Misled, Lost, Exchange, Copied;
      ghost var sound := Valid() && Kept(store, virtualDirs) && Proper(store, op, virtualDirs);
      var ok, left, answer, replies := true, false, Failed, [];
      match op {
        case Look(name, current) => answer, replies := GetAttr(name, current);
        case List(paths) => CacheAttributes(Listed(store, paths, virtualDirs));
        case PutDir(name) =>
          if sound && virtualDirs { PutSound(cacheMap, store, name, Dir, virtualDirs); }
          ok := CreateDir(name);
        case PutFile(name, size, current) =>
          if sound && virtualDirs { PutSound(cacheMap, store, name, File(size), virtualDirs); }
          ok, replies := WriteFile(name, size, current);
        case Remove(name) =>
          if sound && virtualDirs { RemoveSound(cacheMap, store, name, virtualDirs); }
          ok := DeleteFile(name);
        case Rename(src, dst) =>
          var whole;
          ok, whole := RenameFile(src, dst);
          left := !whole;
          if sound && virtualDirs && ok { RenameSound(old(cacheMap), old(store), src, dst, whole); }
        case RemoveTree(name) =>
          ok, left := DeleteDir(name);
          if sound && ok && !left { RemoveTreeSound(old(cacheMap), old(store), store, name, virtualDirs); }
        case RenameTree(src, dst) =>
          ok, left := RenameDir(src, dst);
          if sound && ok && !left { RenameTreeSound(old(cacheMap), old(store), store, src, dst, virtualDirs); }
        case Resize(name, size) =>
          if sound && virtualDirs { ResizeSound(store, name, size); }
          ok := TruncateFile(name, size);
      }
      out := Outcome(ok, left, answer, replies);
    }
  }

  predicate StartsWith(k: Path, prefix: Path) { prefix <= k }

  ghost function Past(prefix: Path, todo: set<Path>): iset<Path> { iset k | StartsWith(k, prefix) && k !in todo }

  /** A lookup of n changes nothing above n. */
  lemma LookedUp(cache: Cache, cache': Cache, n: Path)
    requires cache' - {n} == cache - {n}
    ensures MissingAbove(cache', n) <==> MissingAbove(cache, n)
  {
    assert forall k :: k != n ==> (k in cache <==> k in cache - {n}) && (k in cache' <==> k in cache' - {n});
    assert forall k :: k != n && k in cache ==> cache[k] == (cache - {n})[k] == cache'[k];
  }

  /** The count of errors is right: it reaches its limit exactly when the lookup gives up. */
  lemma CountsFailures(replies: seq<Reply>, n: nat, failCount: nat)
    requires failCount <= n <= |replies| && failCount <= MAX_FAIL_COUNT
    requires failCount < n ==> replies[n - failCount - 1] != Outage
    requires forall i :: n - failCount <= i < n ==> replies[i] == Outage
    ensures GivesUp(replies, n) <==> failCount == MAX_FAIL_COUNT
  {
  }

  lemma NotMisled(store: Store, name: Path)
    ensures !Misled(store, name, []) && !Lost(name, [])
  {
  }

  /** What is cached of a true answer agrees with the storage. */
  lemma LearntAgrees(store: Store, k: Path, answer: Answer, virtualDirs: bool)
    ensures answer.Found? && Tells(answer, store, k, virtualDirs) ==>
      Agrees(Entry(answer.attr, true, true), store, k, virtualDirs)
    ensures answer == NotFound && Tells(answer, store, k, virtualDirs) ==>
      Agrees(Entry(File(0), false, true), store, k, virtualDirs)
  {
  }

  /** For a name without slash only a lost path misleads. */
  lemma PlainTells(answer: Answer, store: Store, name: Path, replies: seq<Reply>, virtualDirs: bool)
    requires Plain(name)
    ensures TruncateDirName(name) == name && (Misled(store, name, replies) ==> Lost(name, replies))
  {
  }

  lemma OneChanged(cache: Cache, cache': Cache, k: Path)
    requires cache' - {k} == cache - {k}
    ensures forall p :: p != k ==> (p in cache' <==> p in cache) && (p in cache ==> cache'[p] == cache[p])
  {
    assert forall p :: p != k ==> (p in cache <==> p in cache - {k}) && (p in cache' <==> p in cache' - {k});
    assert forall p :: p != k && p in cache ==> cache[p] == (cache - {k})[p] && p in cache' - {k};
  }

  /** After a lookup the cache is right exactly when the answer is, or was not cached. */
  lemma AfterLookup(cache: Cache, cache': Cache, store: Store, k: Path, answer: Answer, virtualDirs: bool)
    requires Coherent(cache, store, virtualDirs)
    requires
      match answer
      case Found(attr) => cache' == cache || cache' == cache[k := Entry(attr, true, true)]
      case NotFound => cache' == cache[k := Entry(File(0), false, true)]
      case Failed => cache' == cache
    ensures Coherent(cache', store, virtualDirs) <==> Tells(answer, store, k, virtualDirs) || cache' == cache
  {
    LookupAbsent(store, k, virtualDirs);
    hide Lookup;
    if cache' != cache {
      assert k in cache' && (Agrees(cache'[k], store, k, virtualDirs) <==> Tells(answer, store, k, virtualDirs));
      forall p | p in cache' && p != k ensures Agrees(cache'[p], store, p, virtualDirs) {
        assert p in cache && cache'[p] == cache[p];
      }
    }
  }

  lemma RestCoherent(cache: Cache, cache': Cache, store: Store, k: Path, virtualDirs: bool)
    requires Coherent(cache, store, virtualDirs) && cache' - {k} == cache - {k}
    ensures Coherent(cache' - {k}, store, virtualDirs)
  {
    forall p | p in cache' - {k} ensures Agrees((cache' - {k})[p], store, p, virtualDirs) {
      assert p in cache - {k} && (cache - {k})[p] == cache[p];
    }
  }

  /** Creating or replacing n, when only the entry of n may be wrong. */
  lemma Healed(cache: Cache, cache': Cache, store: Store, n: Path, a: Attr, virtualDirs: bool)
    requires Coherent(cache - {n}, store, virtualDirs) && Became(cache, cache', iset{}, iset{n})
    ensures Coherent(cache', store[n := a], virtualDirs) <==> !(virtualDirs && MissingAbove(cache, n))
  {
    var dull := if n in cache then cache[n := Dull(cache[n])] else cache;
    forall p | p in dull ensures Agrees(dull[p], store, p, virtualDirs) {
      if p != n { assert p in cache - {n} && (cache - {n})[p] == dull[p]; }
    }
    AfterPut(dull, cache', store, n, a, virtualDirs);
    assert dull - {n} == cache - {n};
    LookedUp(cache, dull, n);
  }

  lemma Untold(cache: Cache, store: Store, store': Store, virtualDirs: bool)
    requires Coherent(cache, store, virtualDirs)
    ensures Coherent(cache, store', virtualDirs) <==>
      forall k :: k in cache && cache[k].valid ==> Lookup(store', k, virtualDirs) == Lookup(store, k, virtualDirs)
  {
    AfterChange(cache, cache, store, store', iset{}, iset{}, virtualDirs);
    assert forall k :: k in cache ==> (Right(cache, store, store', iset{}, iset{}, virtualDirs, k) <==>
      (cache[k].valid ==> Lookup(store', k, virtualDirs) == Lookup(store, k, virtualDirs)));
  }

  /** Neither directory is the other, or in it. */
  predicate Disjoint(src: Path, dst: Path) { !Within(src, dst) && !Within(dst, src) }

  /** Where a path of directory src goes when the directory becomes dst. */
  function Target(k: Path, src: Path, dst: Path): Path
  {
    if |src| <= |k| then dst + k[|src|..] else k
  }

  lemma TargetWithin(k: Path, src: Path, dst: Path)
    requires Plain(src) && Plain(dst) && Within(k, src)
    ensures Within(Target(k, src, dst), dst) && (Under(k, src) ==> Under(Target(k, src, dst), dst))
  {
    if k != src {
      assert k[..|src| + 1] == src + "/";
      assert Target(k, src, dst)[..|dst| + 1] == dst + k[|src|..][..1] == dst + "/";
    } else {
      assert Target(k, src, dst) == dst;
    }
  }

  /** The blobs in `done` are found under dst instead of src; everything else is where it was, unless it was
      in the way. */
  ghost predicate Relocating(store: Store, store': Store, src: Path, dst: Path, done: set<Path>)
  {
    && (forall k :: k in done ==>
          k in store && Within(k, src) && Target(k, src, dst) in store' && store'[Target(k, src, dst)] == store[k])
    && (forall k :: k in store && !Within(k, dst) ==>
          if k in done then k !in store' else k in store' && store'[k] == store[k])
    && (forall k :: k in store' && k !in store ==> exists q :: q in done && Target(q, src, dst) == k)
  }

  /** The whole of directory src is found under dst. */
  ghost predicate Relocated(store: Store, store': Store, src: Path, dst: Path)
  {
    Relocating(store, store', src, dst, set k | k in store && Within(k, src))
  }

  /** The marker of a directory is not in it. */
  lemma MarkerApart(dir: Path)
    ensures !(ExtendDirName(dir) <= TruncateDirName(dir))
  {
  }

  lemma ShrinksNone(store: Store, dir: Path)
    ensures Shrunk(store, store, dir)
  {
  }

  lemma ShrinksOne(store: Store, now: Store, dir: Path, k: Path)
    requires Shrunk(store, now, dir) && (k == TruncateDirName(dir) || ExtendDirName(dir) <= k)
    ensures Shrunk(store, now - {k}, dir)
  {
  }

  lemma NothingWithin(store: Store, dir: Path)
    ensures TruncateDirName(dir) !in store && (forall k :: k in store ==> !(ExtendDirName(dir) <= k)) ==>
      forall k :: Within(k, dir) ==> k !in store
  {
  }

  /** The same in plain words: each path `src/rest` is found as `dst/rest`, the marker too, and nothing else is new. */
  ghost predicate Transplanted(store: Store, store': Store, src: Path, dst: Path)
  {
    && (forall rest :: src + "/" + rest in store ==>
          dst + "/" + rest in store' && store'[dst + "/" + rest] == store[src + "/" + rest])
    && (src in store ==> dst in store' && store'[dst] == store[src])
    && (forall p :: p in store' && p !in store ==>
          (p == dst && src in store) || exists rest :: p == dst + "/" + rest && src + "/" + rest in store)
    && (forall rest :: src + "/" + rest !in store') && src !in store'
  }

  lemma MovesAll(store: Store, store': Store, src: Path, dst: Path)
    requires Plain(src) && Plain(dst) && Disjoint(src, dst)
    requires Relocated(store, store', src, dst) && Shifted(store, store', src, dst)
    ensures Transplanted(store, store', src, dst)
  {
    forall rest: Path
      ensures src + "/" + rest in store ==>
        dst + "/" + rest in store' && store'[dst + "/" + rest] == store[src + "/" + rest]
      ensures src + "/" + rest !in store'
    {
      var k := src + "/" + rest;
      assert k[..|src| + 1] == src + "/" && k[|src|..] == "/" + rest;
      assert Under(k, src) && Target(k, src, dst) == dst + ("/" + rest) == dst + "/" + rest;
      RegionsNest(k, src, dst);
    }
    assert Target(src, src, dst) == dst;
    RegionsNest(src, src, dst);
    forall p | p in store' && p !in store
      ensures (p == dst && src in store) || exists rest :: p == dst + "/" + rest && src + "/" + rest in store
    {
      var q :| q in store && Within(q, src) && Target(q, src, dst) == p;
      NewPath(q, src, dst);
    }
  }

  lemma NewPath(q: Path, src: Path, dst: Path)
    requires Plain(src) && Within(q, src)
    ensures (q == src && Target(q, src, dst) == dst)
            || exists rest :: Target(q, src, dst) == dst + "/" + rest && q == src + "/" + rest
  {
    if q != src {
      var rest := q[|src| + 1..];
      assert q == q[..|src| + 1] + rest == src + "/" + rest;
      assert q[|src|..] == "/" + rest;
      assert Target(q, src, dst) == dst + "/" + rest;
    }
  }

  /** Of two directories that have a path in common, one is in the other. */
  lemma RegionsNest(k: Path, src: Path, dst: Path)
    requires Plain(src) && Plain(dst)
    ensures Within(k, src) && Within(k, dst) ==> !Disjoint(src, dst)
  {
    if Within(k, src) && Within(k, dst) {
      var short, long := if |src| <= |dst| then src else dst, if |src| <= |dst| then dst else src;
      assert short == k[..|short|] && long == k[..|long|];
      assert |short| < |long| ==> long[..|short| + 1] == k[..|short| + 1] == short + "/";
      assert Within(long, short);
    }
  }

  lemma ShiftsNone(store: Store, src: Path, dst: Path)
    ensures Shifted(store, store, src, dst) && Relocating(store, store, src, dst, {})
  {
  }

  lemma ShiftsOne(store: Store, now: Store, now': Store, src: Path, dst: Path, k: Path, t: Path,
                 a: Attr)
    requires Shifted(store, now, src, dst) && Within(k, src) && Within(t, dst)
    requires now' == now || (k in now && (now' == MovedAs(now, k, t, a) || now' == now[t := a]))
    ensures Shifted(store, now', src, dst)
  {
  }

  /** Nothing has come to the name of the source. */
  lemma SourceGone(store: Store, store': Store, src: Path, dst: Path)
    requires Shifted(store, store', src, dst)
    ensures Disjoint(src, dst) && src !in store ==> src !in store'
  {
  }

  lemma RelocatesOne(store: Store, now: Store, src: Path, dst: Path, done: set<Path>, k: Path)
    requires Plain(src) && Plain(dst) && Disjoint(src, dst)
    requires Relocating(store, now, src, dst, done) && k in store && k !in done && Within(k, src)
    ensures k in now && Relocating(store, Moved(now, k, Target(k, src, dst)), src, dst, done + {k})
  {
    var t := Target(k, src, dst);
    RegionsNest(k, src, dst);
    TargetWithin(k, src, dst);
    forall q | q in done ensures Target(q, src, dst) != t && Target(q, src, dst) != k {
      TargetWithin(q, src, dst);
      OneSource(q, k, src, dst);
    }
    RelocatesKey(store, now, src, dst, done, k, t);
  }

  lemma OneSource(q: Path, k: Path, src: Path, dst: Path)
    requires Plain(src) && Within(q, src) && Within(k, src) && q != k
    ensures Target(q, src, dst) != Target(k, src, dst)
  {
    assert q == src + q[|src|..] && k == src + k[|src|..];
    assert Target(q, src, dst)[|dst|..] == q[|src|..] && Target(k, src, dst)[|dst|..] == k[|src|..];
  }

  lemma RelocatesKey(store: Store, now: Store, src: Path, dst: Path, done: set<Path>, k: Path, t: Path)
    requires Relocating(store, now, src, dst, done) && k in store && k !in done && Within(k, src) && !Within(k, dst)
    requires t == Target(k, src, dst) && Within(t, dst)
    requires forall q :: q in done ==> Target(q, src, dst) != t && Target(q, src, dst) != k
    ensures k in now && Relocating(store, Moved(now, k, t), src, dst, done + {k})
  {
    hide Within, Target;
    var now' := Moved(now, k, t);
    forall p | p in now' && p !in store ensures exists q :: q in done + {k} && Target(q, src, dst) == p {
      if p == t {
        assert k in done + {k};
      } else {
        var q :| q in done && Target(q, src, dst) == p;
        assert q in done + {k};
      }
    }
  }

  // ---- directories with markers ----

  /** Every directory something lies in has a marker of its own. */
  ghost predicate Marked(store: Store)
  {
    forall k, p :: p in store && Under(p, k) ==> k in store && store[k] == Dir
  }

  /** Every directory above n has its marker. */
  ghost predicate Above(store: Store, n: Path) { forall k :: Under(n, k) ==> k in store && store[k] == Dir }

  /** Without markers, virtual directories make a difference. The directory of the only file is cached, the file is
      deleted, and the cache still has the directory. */
  lemma VirtualParentStale()
    ensures var store := map["d/f" := File(1)]; var cache := map["d" := Entry(Dir, true, true)];
      Coherent(cache, store, true) && DeleteMisleads(cache, store, "d/f")
  {
    var store := map["d/f" := File(1)];
    assert "d/f" in store && Under("d/f", "d");
    var cache := map["d" := Entry(Dir, true, true)];
    assert !Inhabited(store - {"d/f"}, "d") && "d" in cache;
  }

  /** A directory that was not there is cached as such, a file is created in it, and it stays missing. */
  lemma MissingParentStale()
    ensures var cache := map["d" := Entry(File(0), false, true)];
      Coherent(cache, map[], true) && MissingAbove(cache, "d/f")
  {
    var cache := map["d" := Entry(File(0), false, true)];
    assert "d" in cache && Under("d/f", "d");
  }

  lemma MarkedPut(store: Store, n: Path, a: Attr)
    requires Marked(store) && Above(store, n) && (n in store && store[n] == Dir ==> a == Dir)
    ensures Marked(store[n := a])
  {
  }

  lemma MarkedDelete(store: Store, n: Path)
    requires Marked(store) && (n in store ==> store[n].File?)
    ensures Marked(store - {n})
  {
  }

  lemma MarkedMove(store: Store, src: Path, dst: Path, a: Attr)
    requires Marked(store) && src in store && store[src].File? && a.File? && Above(store, dst)
    requires !(dst in store && store[dst] == Dir)
    ensures Marked(MovedAs(store, src, dst, a))
  {
    MarkedPut(store, dst, a);
    MarkedDelete(store[dst := a], src);
  }

  /** What is in a directory of a directory is in that. */
  lemma UnderWithin(p: Path, k: Path, dir: Path)
    requires Plain(dir) && Under(p, k) && Within(k, dir)
    ensures Within(p, dir) && Under(p, dir)
  {
    assert p[..|k| + 1] == k + "/";
    if k != dir { assert p[..|dir| + 1] == k[..|dir| + 1]; }
  }

  lemma MarkedDeleteDir(store: Store, store': Store, dir: Path)
    requires Marked(store) && Plain(dir) && Shrunk(store, store', dir) && forall k :: Within(k, dir) ==> k !in store'
    ensures Marked(store')
  {
    forall k, p | p in store' && Under(p, k) ensures k in store' && store'[k] == Dir {
      if Within(k, dir) { UnderWithin(p, k, dir); }
    }
  }

  lemma MarkedMoveDir(store: Store, store': Store, src: Path, dst: Path)
    requires Marked(store) && Plain(src) && Plain(dst) && Disjoint(src, dst) && src in store && store[src] == Dir
    requires Above(store, dst) && !Inhabited(store, dst) && Relocated(store, store', src, dst)
    ensures Marked(store')
  {
    var done := set k | k in store && Within(k, src);
    forall k, p | p in store' && Under(p, k) ensures k in store' && store'[k] == Dir {
      if p in store && !Within(p, dst) {
        StayedAbove(store, store', src, dst, p, k);
      } else {
        var q := CameFrom(store, store', src, dst, p);
        MovedAbove(store, store', src, dst, q, k);
      }
    }
  }

  /** A path in the destination was moved there, when nothing was there before. */
  lemma CameFrom(store: Store, store': Store, src: Path, dst: Path, p: Path) returns (q: Path)
    requires Relocated(store, store', src, dst) && src in store && Plain(src) && Plain(dst) && !Inhabited(store, dst)
    requires p in store' && (p !in store || Within(p, dst))
    ensures q in store && Within(q, src) && Target(q, src, dst) == p
  {
    assert Target(src, src, dst) == dst;
    if p == dst {
      q := src;
    } else {
      assert p !in store by { assert Within(p, dst) && p in store ==> Under(p, dst); }
      q :| q in (set k | k in store && Within(k, src)) && Target(q, src, dst) == p;
    }
  }

  /** A directory above a path that was not moved was not moved either. */
  lemma StayedAbove(store: Store, store': Store, src: Path, dst: Path, p: Path, k: Path)
    requires Marked(store) && Plain(src) && Plain(dst) && Relocated(store, store', src, dst)
    requires p in store && p in store' && !Within(p, dst) && Under(p, k)
    ensures k in store' && store'[k] == Dir
  {
    assert k in store && store[k] == Dir;
    if Within(k, src) { UnderWithin(p, k, src); }
    if Within(k, dst) { UnderWithin(p, k, dst); }
  }

  /** A directory above a moved path is above the destination, is the destination, or was moved along. */
  lemma MovedAbove(store: Store, store': Store, src: Path, dst: Path, q: Path, k: Path)
    requires Marked(store) && Plain(src) && Plain(dst) && Disjoint(src, dst) && src in store && store[src] == Dir
    requires Above(store, dst) && Relocated(store, store', src, dst) && q in store && Within(q, src)
    requires Under(Target(q, src, dst), k)
    ensures k in store' && store'[k] == Dir
  {
    var p := Target(q, src, dst);
    assert p[..|k| + 1] == k + "/" && p[..|dst|] == dst;
    if |k| < |dst| {
      assert dst[..|k| + 1] == p[..|k| + 1];
      assert Under(dst, k);
      if Within(k, src) { UnderWithin(dst, k, src); }
    } else if |k| == |dst| {
      assert k == p[..|k|] == dst && Target(src, src, dst) == dst;
    } else {
      var k' := SourceAbove(src, dst, q, k);
    }
  }

  /** A directory in the destination comes from one in the source. */
  lemma SourceAbove(src: Path, dst: Path, q: Path, k: Path) returns (k': Path)
    requires Plain(src) && Plain(dst) && Within(q, src) && Under(Target(q, src, dst), k) && |k| > |dst|
    ensures Under(q, k') && Within(k', src) && Target(k', src, dst) == k
  {
    var p, n := Target(q, src, dst), |src| + (|k| - |dst|);
    assert p == dst + q[|src|..] && p[..|k|] == k && p[|k|] == '/';
    k' := q[..n];
    assert q[n] == p[|k|] && q[..n + 1] == k' + "/";
    assert q[..|src| + 1] == src + "/" && k'[..|src| + 1] == q[..|src| + 1];
    assert k'[|src|..] == q[|src|..n] && dst + q[|src|..n] == p[..|k|];
  }

  // ---- runs ----

  datatype Op =
    | Look(name: Path, current: bool) | List(paths: seq<Path>) | PutDir(name: Path)
    | PutFile(name: Path, size: nat, current: bool) | Remove(name: Path) | Rename(src: Path, dst: Path)
    | RemoveTree(name: Path) | RenameTree(src: Path, dst: Path) | Resize(name: Path, size: nat)

  /** Whether the operation succeeded, whether it left blobs of a directory behind or copied less than all, what a
      lookup said, and what the storage replied when it was by listing. */
  datatype Outcome = Outcome(ok: bool, left: bool, answer: Answer, replies: seq<Reply>)

  /** The paths a listing can return. */
  function Listed(store: Store, paths: seq<Path>, virtualDirs: bool): (r: seq<Path>)
    ensures forall i :: 0 <= i < |r| ==> Lookup(store, TruncateDirName(r[i]), virtualDirs).0
  {
    if paths == [] then []
    else
      var rest := Listed(store, paths[1..], virtualDirs);
      if Lookup(store, TruncateDirName(paths[0]), virtualDirs).0 then [paths[0]] + rest else rest
  }

  /** With virtual directories: every directory something lies in has a marker of its own. */
  ghost predicate Kept(store: Store, virtualDirs: bool) { virtualDirs ==> Marked(store) }

  /** What the file system asks for: with virtual directories, names that walk through directories, files where files
      are meant, and a directory renamed only to a free place; and with or without, a directory renamed only to a
      place outside itself and no slash at the end of a name to truncate. */
  ghost predicate Proper(store: Store, op: Op, virtualDirs: bool)
  {
    && (virtualDirs ==> Walks(store, op))
    && (op.RenameTree? ==> Plain(op.src) && Plain(op.dst) && Disjoint(op.src, op.dst))
    && (op.Resize? ==> Plain(op.name))
  }

  ghost predicate Walks(store: Store, op: Op)
  {
    match op
    case Look(_, _) => true
    case List(_) => true
    case PutDir(n) => Plain(n) && Above(store, n)
    case PutFile(n, _, _) => Plain(n) && Above(store, n) && !(n in store && store[n] == Dir)
    case Remove(n) => Plain(n) && (n in store ==> store[n].File?)
    case Rename(src, dst) =>
      && Plain(src) && Plain(dst) && (src in store ==> store[src].File?) && Above(store, dst)
      && !(dst in store && store[dst] == Dir)
    case RemoveTree(n) => Plain(n)
    case RenameTree(src, dst) => src in store && store[src] == Dir && Above(store, dst) && !Inhabited(store, dst)
    case Resize(n, _) => true
  }

  /** The storage did all of it or nothing, as it reported, and no listing misled; a rename of a file may have lost what
      was in it, and a file that was then written may have been said to be missing. */
  ghost predicate Clean(op: Op, out: Outcome, store: Store, store': Store)
  {
    && (if out.ok then op.Rename? || !out.left else store' == store)
    && (op.Look? || (op.PutFile? && !out.ok) ==> !Misled(store, op.name, out.replies))
  }

  /** A lookup whose entry has expired is answered by the storage, whatever the cache held. */
  ghost predicate Fresh(op: Op, out: Outcome, store: Store, virtualDirs: bool)
  {
    op.Look? && !op.current ==>
      (Tells(out.answer, store, TruncateDirName(op.name), virtualDirs) <==> !Misled(store, op.name, out.replies))
  }

  /** How an operation ends when no storage call fails. */
  ghost predicate Answered(op: Op, out: Outcome, store: Store)
  {
    match op
    case Look(n, _) => out.answer != Failed && !Lost(n, out.replies)
    case List(_) => out.ok
    case PutDir(_) => out.ok
    case PutFile(_, _, _) => out.ok
    case Remove(n) => out.ok <==> TruncateDirName(n) in store
    case Rename(src, _) => !out.left && (out.ok <==> TruncateDirName(src) in store)
    case RemoveTree(n) => !out.left && (out.ok <==> TruncateDirName(n) in store)
    case RenameTree(src, dst) =>
      Disjoint(src, dst) ==> !out.left && (out.ok <==> src in store || Inhabited(store, src))
    case Resize(n, _) => out.ok <==> TruncateDirName(n) in store && store[TruncateDirName(n)].File?
  }

  /** What an operation can do to the storage. */
  ghost predicate StoreStep(op: Op, out: Outcome, store: Store, store': Store)
  {
    match op
    case Look(_, _) => store' == store
    case List(_) => store' == store
    case PutDir(n) => store' == if out.ok then store[TruncateDirName(n) := Dir] else store
    case PutFile(n, size, _) => store' == if out.ok then store[TruncateDirName(n) := File(size)] else store
    case Remove(n) => store' == if out.ok then store - {TruncateDirName(n)} else store
    case Rename(src, dst) =>
      var s, d := TruncateDirName(src), TruncateDirName(dst);
      if out.ok then s in store && store' == MovedAs(store, s, d, Copied(store, s, !out.left))
      else store' == store || (s in store && store' == store[d := Copied(store, s, !out.left)])
    case RemoveTree(n) => Shrunk(store, store', n)
    case RenameTree(src, dst) => Shifted(store, store', src, dst)
    case Resize(n, size) => store' == if out.ok then store[TruncateDirName(n) := File(size)] else store
  }

  lemma PutSound(cache: Cache, store: Store, n: Path, a: Attr, virtualDirs: bool)
    requires Coherent(cache, store, virtualDirs) && Marked(store) && Plain(n) && Above(store, n)
    requires n in store && store[n] == Dir ==> a == Dir
    ensures !MissingAbove(cache, n) && Marked(store[n := a])
  {
    MarkedPut(store, n, a);
    forall k | k in cache && Under(n, k) ensures !cache[k].valid || cache[k].present {
      assert Agrees(cache[k], store, k, virtualDirs);
    }
  }

  lemma NoneEmptied(cache: Cache, store: Store, store': Store, spared: iset<Path>, virtualDirs: bool)
    requires Coherent(cache, store, virtualDirs) && Marked(store)
    ensures !EmptiedAbove(cache, store, store', spared)
  {
    forall k | k in cache && cache[k].valid && cache[k].present ensures k in store {
      assert Agrees(cache[k], store, k, virtualDirs);
    }
  }

  lemma RemoveSound(cache: Cache, store: Store, n: Path, virtualDirs: bool)
    requires Coherent(cache, store, virtualDirs) && Marked(store) && (n in store ==> store[n].File?)
    ensures n in store ==> !DeleteMisleads(cache, store, n) && Marked(store - {n})
  {
    NoneEmptied(cache, store, store - {n}, iset{n}, virtualDirs);
    MarkedDelete(store, n);
  }

  lemma RenameSound(cache: Cache, store: Store, src: Path, dst: Path, whole: bool)
    requires Coherent(cache, store, true) && Marked(store) && Walks(store, Rename(src, dst)) && src in store
    ensures !MoveMisleads(cache, store, src, dst) && Marked(MovedAs(store, src, dst, Copied(store, src, whole)))
  {
    NoneEmptied(cache, store, Moved(store, src, dst), iset{src, dst}, true);
    PutSound(cache, store, dst, store[src], true);
    MarkedMove(store, src, dst, Copied(store, src, whole));
    MoveInhabits(store, src, dst, src);
  }

  lemma RemoveTreeSound(cache: Cache, store: Store, store': Store, n: Path, virtualDirs: bool)
    requires Coherent(cache, store, virtualDirs) && Kept(store, virtualDirs) && Shrunk(store, store', n)
    requires (virtualDirs ==> Plain(n)) && forall k :: Within(k, n) ==> k !in store'
    ensures Kept(store', virtualDirs) && !LeftBehind(cache, store', Region(n), virtualDirs)
    ensures virtualDirs ==> !EmptiedAbove(cache, store, store', Region(n))
  {
    if virtualDirs {
      NoneEmptied(cache, store, store', Region(n), virtualDirs);
      MarkedDeleteDir(store, store', n);
    }
    forall k | k in Region(n) ensures !Lookup(store', k, virtualDirs).0 { }
  }

  lemma RenameTreeSound(cache: Cache, store: Store, store': Store, src: Path, dst: Path, virtualDirs: bool)
    requires Coherent(cache, store, virtualDirs) && Kept(store, virtualDirs)
    requires Proper(store, RenameTree(src, dst), virtualDirs)
    requires Relocated(store, store', src, dst) && Shifted(store, store', src, dst)
    ensures Kept(store', virtualDirs) && !LeftBehind(cache, store', Region(src) - Region(dst), virtualDirs)
    ensures virtualDirs ==> !EmptiedAbove(cache, store, store', Region(src) + Region(dst))
    ensures virtualDirs ==> !AppearedAbove(cache, store', Region(src) + Region(dst))
  {
    SourceEmpty(store, store', src, dst);
    if virtualDirs {
      NoneEmptied(cache, store, store', Region(src) + Region(dst), virtualDirs);
      MarkedMoveDir(store, store', src, dst);
      forall k | k in cache && k !in Region(src) + Region(dst) && Inhabited(store', k)
        ensures !cache[k].valid || cache[k].present
      {
        assert Agrees(cache[k], store, k, virtualDirs);
      }
      forall k | k in Region(src) - Region(dst) ensures !Lookup(store', k, virtualDirs).0 { }
    }
  }

  lemma SourceEmpty(store: Store, store': Store, src: Path, dst: Path)
    requires Plain(src) && Plain(dst) && Shifted(store, store', src, dst) && Relocated(store, store', src, dst)
    ensures forall k :: Within(k, src) && !Within(k, dst) ==> k !in store'
  {
  }

  lemma ResizeSound(store: Store, n: Path, size: nat)
    requires Marked(store) && Plain(n)
    ensures n in store && store[n].File? ==> Marked(store[n := File(size)])
  {
  }

  /** The storage before each operation of a run and after the last one. */
  ghost predicate Trace(ops: seq<Op>, outs: seq<Outcome>, stores: seq<Store>)
  {
    |outs| == |ops| && |stores| == |ops| + 1 &&
    forall i {:trigger ops[i]} :: 0 <= i < |ops| ==> StoreStep(ops[i], outs[i], stores[i], stores[i + 1])
  }

  /** Every operation was a proper one, and the storage did all of it or nothing. */
  ghost predicate Faultless(ops: seq<Op>, outs: seq<Outcome>, stores: seq<Store>, virtualDirs: bool)
    requires Trace(ops, outs, stores)
  {
    forall i {:trigger ops[i]} :: 0 <= i < |ops| ==>
      Proper(stores[i], ops[i], virtualDirs) && Clean(ops[i], outs[i], stores[i], stores[i + 1])
  }

  /** Every run without virtual directories, and every run with them that starts with a marker in every directory: the
      cache agrees with the storage, every directory keeps its marker, and every lookup says what the storage holds
      at that time. In every run at all, a lookup whose entry has expired says so; and no operation fails unless a
      storage call does. */
  method Session(ac: AttrCache, ops: seq<Op>) returns (outs: seq<Outcome>, ghost stores: seq<Store>)
    requires forall i :: 0 <= i < |ops| && ops[i].RenameTree? ==> Plain(ops[i].src) && Plain(ops[i].dst)
    modifies ac
    ensures Trace(ops, outs, stores) && stores[0] == old(ac.store) && stores[|ops|] == ac.store
    ensures old(ac.Valid()) && Kept(old(ac.store), ac.virtualDirs) && Faultless(ops, outs, stores, ac.virtualDirs) ==>
      && ac.Valid() && Kept(ac.store, ac.virtualDirs)
      && forall i :: 0 <= i < |ops| && ops[i].Look? ==>
          Tells(outs[i].answer, stores[i], TruncateDirName(ops[i].name), ac.virtualDirs)
    ensures forall i :: 0 <= i < |ops| ==> Fresh(ops[i], outs[i], stores[i], ac.virtualDirs)
    ensures ac.faults >= old(ac.faults)
    ensures ac.faults == old(ac.faults) ==> forall i :: 0 <= i < |ops| ==> Answered(ops[i], outs[i], stores[i])
  {
    hide Coherent, Kept, Proper, Clean, StoreStep, Tells, Fresh, Answered;
    outs, stores := [], [ac.store];
    for i := 0 to |ops|
      invariant Trace(ops[..i], outs, stores) && stores[0] == old(ac.store) && stores[i] == ac.store
      invariant old(ac.Valid()) && Kept(old(ac.store), ac.virtualDirs)
                && Faultless(ops[..i], outs, stores, ac.virtualDirs) ==>
        && ac.Valid() && Kept(ac.store, ac.virtualDirs)
        && forall j :: 0 <= j < i && ops[j].Look? ==>
            Tells(outs[j].answer, stores[j], TruncateDirName(ops[j].name), ac.virtualDirs)
      invariant forall j :: 0 <= j < i ==> Fresh(ops[j], outs[j], stores[j], ac.virtualDirs)
      invariant ac.faults >= old(ac.faults)
      invariant ac.faults == old(ac.faults) ==> forall j :: 0 <= j < i ==> Answered(ops[j], outs[j], stores[j])
    {
      var out := ac.Apply(ops[i]);
      TraceMore(ops[..i], outs, stores, ops[i], out, ac.store, ac.virtualDirs);
      assert ops[..i + 1] == ops[..i] + [ops[i]];
      outs, stores := outs + [out], stores + [ac.store];
    }
    assert ops[..|ops|] == ops;
  }

  lemma TraceMore(ops: seq<Op>, outs: seq<Outcome>, stores: seq<Store>, op: Op, out: Outcome, store: Store,
                  virtualDirs: bool)
    requires Trace(ops, outs, stores) && StoreStep(op, out, stores[|ops|], store)
    ensures Trace(ops + [op], outs + [out], stores + [store])
    ensures Faultless(ops + [op], outs + [out], stores + [store], virtualDirs) <==>
      Faultless(ops, outs, stores, virtualDirs) && Proper(stores[|ops|], op, virtualDirs)
      && Clean(op, out, stores[|ops|], store)
  {
    hide StoreStep, Proper, Clean;
    var ops', outs', stores' := ops + [op], outs + [out], stores + [store];
    assert forall i :: 0 <= i < |ops| ==> ops'[i] == ops[i] && outs'[i] == outs[i] && stores'[i] == stores[i];
    assert ops'[|ops|] == op && outs'[|ops|] == out && stores'[|ops|] == stores[|ops|] && stores'[|ops| + 1] == store;
    if Faultless(ops', outs', stores', virtualDirs) {
      assert Proper(stores'[|ops|], ops'[|ops|], virtualDirs);
      forall i | 0 <= i < |ops|
        ensures Proper(stores[i], ops[i], virtualDirs) && Clean(ops[i], outs[i], stores[i], stores[i + 1])
      {
        assert Proper(stores'[i], ops'[i], virtualDirs);
      }
    }
  }
}
