/** The file cache's LFU policy: a linked list of buckets, one per use count, each a linked list of
    the files used that often. */
module LfuPolicy {
  import opened Links
  import opened Sequences
  import opened Shelves

  datatype DataNode = DataNode(key: Name, frequency: nat)

  datatype Bucket = Bucket(frequency: nat, list: Ends, size: nat)

  /** The two maps, the nodes of both kinds with their links, and the ends of the bucket list;
      `order` and `members` are the lists the links make. */
  datatype State = State(nodes: map<Ref, DataNode>, buckets: map<Ref, Bucket>, ends: Ends, dataNodeMap: map<Name, Ref>,
                         freqNodeMap: map<nat, Ref>, data: Links, freq: Links, order: seq<Ref>,
                         members: map<Ref, seq<Ref>>)

  /** Bucket f is on the map under its count, its list is well linked, and it is not empty. */
  ghost predicate BucketOk(w: State, f: Ref, empty: set<Ref>)
  {
    && f in w.buckets && f in w.members
    && Linked(w.data, w.buckets[f].list, w.members[f]) && w.buckets[f].size == |w.members[f]| && (f !in empty ==>
        w.members[f] != [])
    && w.buckets[f].frequency in w.freqNodeMap && w.freqNodeMap[w.buckets[f].frequency] == f
  }

  /** Node d of bucket f counts as often as the bucket says and is on the map under its key. */
  ghost predicate MemberOk(w: State, f: Ref, d: Ref, out: set<Name>)
    requires f in w.buckets
  {
    && d in w.nodes && w.nodes[d].frequency == w.buckets[f].frequency && w.nodes[d].key !in out
    && w.nodes[d].key in w.dataNodeMap && w.dataNodeMap[w.nodes[d].key] == d
  }

  /** The node of a cached key is in the bucket for its count. */
  ghost predicate CachedOk(w: State, key: Name)
    requires key in w.dataNodeMap
  {
    var d := w.dataNodeMap[key];
    && d in w.nodes && w.nodes[d].key == key && w.nodes[d].frequency in w.freqNodeMap
    && var f := w.freqNodeMap[w.nodes[d].frequency]; f in w.members && d in w.members[f]
  }

  ghost predicate BucketsOk(w: State, empty: set<Ref>) { forall f :: f in w.order ==> BucketOk(w, f, empty) }

  ghost predicate MembersOk(w: State, out: set<Name>)
  {
    forall f, d :: f in w.order && f in w.members && f in w.buckets && d in w.members[f] ==> MemberOk(w, f, d, out)
  }

  ghost predicate MapsOk(w: State, out: set<Name>)
  {
    && (forall k :: k in w.freqNodeMap ==>
          w.freqNodeMap[k] in w.order && w.freqNodeMap[k] in w.buckets && w.buckets[w.freqNodeMap[k]].frequency == k)
    && (forall key :: key in w.dataNodeMap && key !in out ==> CachedOk(w, key))
    && (forall key :: key in out ==>
          key in w.dataNodeMap && w.dataNodeMap[key] in w.nodes && w.nodes[w.dataNodeMap[key]].key == key
              && Loose(w.data, w.dataNodeMap[key]))
  }

  ghost predicate Allocated(w: State, nextRef: Ref)
  {
    forall r :: r in w.data.next || r in w.data.prev || r in w.freq.next || r in w.freq.prev || r in w.nodes ==>
      r < nextRef
  }

  /** In the middle of an operation the buckets in `empty` may be empty, and the keys in `out` are
      mapped to a node that is in no bucket. */
  ghost predicate Inv(w: State, empty: set<Ref>, out: set<Name>, nextRef: Ref)
  {
    && Linked(w.freq, w.ends, w.order) && BucketsOk(w, empty)
    && MembersOk(w, out) && MapsOk(w, out) && Allocated(w, nextRef)
  }

  /** Two buckets have no node in common. */
  lemma BucketsApart(w: State, f: Ref, g: Ref, empty: set<Ref>, out: set<Name>, nextRef: Ref)
    requires Inv(w, empty, out, nextRef) && f in w.order && g in w.order && f != g
    ensures f in w.members && g in w.members && forall d :: d in w.members[f] ==> d !in w.members[g]
  {
    assert BucketOk(w, f, empty) && BucketOk(w, g, empty);
    forall d | d in w.members[f] ensures d !in w.members[g] { assert MemberOk(w, f, d, out); }
  }

  /** A node leaves its bucket. */
  ghost predicate TakenOut(w: State, w': State, f: Ref, i: nat)
  {
    && f in w.order && f in w.members && f in w.buckets && f in w'.members && f in w'.buckets
    && w' == w.(data := w'.data, buckets := w.buckets[f := w'.buckets[f]], members := w.members[f := w'.members[f]])
    && Skips(w.members[f], i, w'.members[f]) && w'.buckets[f].frequency == w.buckets[f].frequency
    && w'.buckets[f].size == w.buckets[f].size - 1
    && Linked(w'.data, w'.buckets[f].list, w'.members[f]) && Loose(w'.data, w.members[f][i])
    && Elsewhere(w.data, w'.data, Nodes(w.members[f]))
  }

  lemma SkippedMembers(s: seq<Ref>, i: nat, t: seq<Ref>)
    requires Skips(s, i, t) && Unrepeated(s)
    ensures forall r :: r in t <==> r in s && r != s[i]
  {
    forall r ensures r in t <==> r in s && r != s[i] { SkipMember(s, i, t, r); }
  }

  lemma TakeOutKeeps(w: State, w': State, f: Ref, i: nat, empty: set<Ref>, nextRef: Ref)
    requires Inv(w, empty, {}, nextRef) && TakenOut(w, w', f, i)
    ensures w.members[f][i] in w.nodes && Inv(w', empty + {f}, {w.nodes[w.members[f][i]].key}, nextRef)
  {
    assert MemberOk(w, f, w.members[f][i], {}) && BucketOk(w, f, empty);
    TakeOutBuckets(w, w', f, i, empty, nextRef);
    forall g | g in w.order && g in w.members && g != f ensures w.members[f][i] !in w.members[g] {
      BucketsApart(w, f, g, empty, {}, nextRef);
    }
    TakeOutMembers(w, w', f, i, w.nodes[w.members[f][i]].key);
    TakeOutMaps(w, w', f, i, w.nodes[w.members[f][i]].key);
    hide BucketsOk, MembersOk, MapsOk, Linked, Unrepeated;
  }

  lemma TakeOutBuckets(w: State, w': State, f: Ref, i: nat, empty: set<Ref>, nextRef: Ref)
    requires Inv(w, empty, {}, nextRef) && TakenOut(w, w', f, i)
    ensures BucketsOk(w', empty + {f})
  {
    forall g | g in w'.order ensures BucketOk(w', g, empty + {f}) {
      assert BucketOk(w, g, empty);
      if g != f {
        BucketsApart(w, g, f, empty, {}, nextRef);
        LinkedElsewhere(w.data, w'.data, Nodes(w.members[f]), w.buckets[g].list, w.members[g]);
      }
    }
  }

  lemma TakeOutMembers(w: State, w': State, f: Ref, i: nat, key: Name)
    requires MembersOk(w, {}) && TakenOut(w, w', f, i) && Unrepeated(w.members[f])
    requires w.members[f][i] in w.nodes && w.nodes[w.members[f][i]].key == key
    requires forall g :: g in w.order && g in w.members && g != f ==> w.members[f][i] !in w.members[g]
    ensures MembersOk(w', {key})
  {
    SkippedMembers(w.members[f], i, w'.members[f]);
    assert MemberOk(w, f, w.members[f][i], {});
    forall g, e | g in w'.order && g in w'.members && g in w'.buckets && e in w'.members[g]
      ensures MemberOk(w', g, e, {key})
    {
      assert MemberOk(w, g, e, {});
    }
  }

  lemma TakeOutMaps(w: State, w': State, f: Ref, i: nat, key: Name)
    requires MapsOk(w, {}) && TakenOut(w, w', f, i) && Unrepeated(w.members[f]) && MemberOk(w, f, w.members[f][i], {})
    requires w.nodes[w.members[f][i]].key == key
    ensures MapsOk(w', {key})
  {
    SkippedMembers(w.members[f], i, w'.members[f]);
    forall k | k in w'.dataNodeMap && k != key ensures CachedOk(w', k) { assert CachedOk(w, k); }
  }

  /** The node of key `key`, which is in no bucket, goes to the end of bucket f, whose count it has. */
  ghost predicate PutIn(w: State, w': State, f: Ref, key: Name)
  {
    && f in w.order && f in w.members && f in w.buckets && f in w'.members && f in w'.buckets && key in w.dataNodeMap
    && var d := w.dataNodeMap[key];
    && d in w.nodes && w.nodes[d].frequency == w.buckets[f].frequency
    && w' == w.(data := w'.data, buckets := w.buckets[f := w'.buckets[f]],
                members := w.members[f := w.members[f] + [d]])
    && w'.buckets[f].frequency == w.buckets[f].frequency && w'.buckets[f].size == w.buckets[f].size + 1
    && Linked(w'.data, w'.buckets[f].list, w'.members[f]) && Elsewhere(w.data, w'.data, Nodes(w.members[f]) + {d})
  }

  /** A node that is in no bucket. */
  lemma OutApart(w: State, key: Name, g: Ref, empty: set<Ref>, out: set<Name>, nextRef: Ref)
    requires Inv(w, empty, out, nextRef) && key in out && g in w.order
    ensures key in w.dataNodeMap && g in w.members && w.dataNodeMap[key] !in w.members[g]
  {
    assert BucketOk(w, g, empty);
    assert w.dataNodeMap[key] in w.members[g] ==> MemberOk(w, g, w.dataNodeMap[key], out);
  }

  lemma PutInKeeps(w: State, w': State, f: Ref, key: Name, empty: set<Ref>, nextRef: Ref)
    requires Inv(w, empty, {key}, nextRef) && PutIn(w, w', f, key)
    ensures Inv(w', empty - {f}, {}, nextRef)
  {
    PutInBuckets(w, w', f, key, empty, nextRef);
    assert BucketOk(w, f, empty);
    PutInMembers(w, w', f, key);
    PutInMaps(w, w', f, key);
    hide BucketsOk, MembersOk, MapsOk, Linked, Unrepeated;
  }

  lemma PutInBuckets(w: State, w': State, f: Ref, key: Name, empty: set<Ref>, nextRef: Ref)
    requires Inv(w, empty, {key}, nextRef) && PutIn(w, w', f, key)
    ensures BucketsOk(w', empty - {f})
  {
    var d := w.dataNodeMap[key];
    forall g | g in w'.order ensures BucketOk(w', g, empty - {f}) {
      assert BucketOk(w, g, empty);
      if g != f {
        BucketsApart(w, g, f, empty, {key}, nextRef);
        OutApart(w, key, g, empty, {key}, nextRef);
        LinkedElsewhere(w.data, w'.data, Nodes(w.members[f]) + {d}, w.buckets[g].list, w.members[g]);
      }
    }
  }

  lemma PutInMembers(w: State, w': State, f: Ref, key: Name)
    requires MembersOk(w, {key}) && PutIn(w, w', f, key) && w.nodes[w.dataNodeMap[key]].key == key
    ensures MembersOk(w', {})
  {
    forall g, e | g in w'.order && g in w'.members && g in w'.buckets && e in w'.members[g]
      ensures MemberOk(w', g, e, {})
    {
      if e in w.members[g] { assert MemberOk(w, g, e, {key}); }
    }
  }

  lemma PutInMaps(w: State, w': State, f: Ref, key: Name)
    requires MapsOk(w, {key}) && PutIn(w, w', f, key) && w.buckets[f].frequency in w.freqNodeMap
    requires w.freqNodeMap[w.buckets[f].frequency] == f
    ensures MapsOk(w', {})
  {
    forall k | k in w'.dataNodeMap ensures CachedOk(w', k) {
      if k != key { assert CachedOk(w, k); }
    }
  }

  /** A bucket for a count that has none, still empty, somewhere in the list. */
  ghost predicate Added(w: State, w': State, f: Ref, i: nat)
  {
    && f !in w.order && f in w'.buckets && Inserts(w.order, i, f, w'.order)
    && w' == w.(freq := w'.freq, ends := w'.ends, order := w'.order, buckets := w.buckets[f := w'.buckets[f]],
                freqNodeMap := w.freqNodeMap[w'.buckets[f].frequency := f], members := w.members[f := []])
    && w'.buckets[f].list == Ends(Nil, Nil) && w'.buckets[f].size == 0 && w'.buckets[f].frequency !in w.freqNodeMap
    && Linked(w'.freq, w'.ends, w'.order)
  }

  lemma InsertMember(s: seq<Ref>, i: nat, r: Ref, t: seq<Ref>)
    requires Inserts(s, i, r, t)
    ensures forall q :: q in t <==> q in s || q == r
  {
    assert t[i] == r;
    forall q | q in s ensures q in t {
      var k :| 0 <= k < |s| && s[k] == q;
      assert t[if k < i then k else k + 1] == q;
    }
  }

  lemma AddKeeps(w: State, w': State, f: Ref, i: nat, empty: set<Ref>, out: set<Name>, nextRef: Ref)
    requires Inv(w, empty, out, nextRef) && Added(w, w', f, i)
    requires forall r :: r in w'.freq.next || r in w'.freq.prev ==> r < nextRef
    ensures Inv(w', empty + {f}, out, nextRef)
  {
    InsertMember(w.order, i, f, w'.order);
    AddBuckets(w, w', f, i, empty);
    AddMembers(w, w', f, i, out);
    AddMaps(w, w', f, i, out);
    hide BucketsOk, MembersOk, MapsOk, Linked;
  }

  lemma AddMaps(w: State, w': State, f: Ref, i: nat, out: set<Name>)
    requires MapsOk(w, out) && Added(w, w', f, i)
    ensures MapsOk(w', out)
  {
    InsertMember(w.order, i, f, w'.order);
    forall k | k in w'.dataNodeMap && k !in out ensures CachedOk(w', k) {
      assert CachedOk(w, k);
      assert w.freqNodeMap[w.nodes[w.dataNodeMap[k]].frequency] in w.order;
    }
  }

  lemma AddMembers(w: State, w': State, f: Ref, i: nat, out: set<Name>)
    requires MembersOk(w, out) && Added(w, w', f, i)
    ensures MembersOk(w', out)
  {
    InsertMember(w.order, i, f, w'.order);
    forall g, e | g in w'.order && g in w'.members && g in w'.buckets && e in w'.members[g]
      ensures MemberOk(w', g, e, out)
    {
      assert MemberOk(w, g, e, out);
    }
  }

  lemma AddBuckets(w: State, w': State, f: Ref, i: nat, empty: set<Ref>)
    requires BucketsOk(w, empty) && Added(w, w', f, i)
    ensures BucketsOk(w', empty + {f})
  {
    InsertMember(w.order, i, f, w'.order);
    forall g | g in w'.order ensures BucketOk(w', g, empty + {f}) { if g != f { assert BucketOk(w, g, empty); } }
  }

  /** An empty bucket leaves the list and the map. */
  ghost predicate Dropped(w: State, w': State, i: nat)
  {
    && i < |w.order| && w.order[i] in w.buckets && Skips(w.order, i, w'.order)
    && w' == w.(freq := w'.freq, ends := w'.ends, order := w'.order,
                freqNodeMap := w.freqNodeMap - {w.buckets[w.order[i]].frequency})
    && Linked(w'.freq, w'.ends, w'.order)
  }

  lemma DropKeeps(w: State, w': State, i: nat, empty: set<Ref>, out: set<Name>, nextRef: Ref)
    requires Inv(w, empty, out, nextRef) && Dropped(w, w', i) && w.order[i] in w.members && w.members[w.order[i]] == []
    requires forall r :: r in w'.freq.next || r in w'.freq.prev ==> r < nextRef
    ensures Inv(w', empty - {w.order[i]}, out, nextRef)
  {
    var f := w.order[i];
    SkippedMembers(w.order, i, w'.order);
    hide Linked;
    assert BucketOk(w, f, empty);
    forall g | g in w'.order ensures BucketOk(w', g, empty - {f}) { assert BucketOk(w, g, empty); }
    forall g, e | g in w'.order && g in w'.members && g in w'.buckets && e in w'.members[g]
      ensures MemberOk(w', g, e, out)
    {
      assert MemberOk(w, g, e, out);
    }
    forall k | k in w'.dataNodeMap && k !in out ensures CachedOk(w', k) { assert CachedOk(w, k); }
  }

  /** The node of a key that is in no bucket gets another count. */
  lemma RecountKeeps(w: State, key: Name, frequency: nat, empty: set<Ref>, nextRef: Ref)
    requires Inv(w, empty, {key}, nextRef)
    ensures key in w.dataNodeMap && w.dataNodeMap[key] in w.nodes && var d := w.dataNodeMap[key];
      Inv(w.(nodes := w.nodes[d := w.nodes[d].(frequency := frequency)]), empty, {key}, nextRef)
  {
    hide Linked, Loose;
    var d := w.dataNodeMap[key];
    var w' := w.(nodes := w.nodes[d := w.nodes[d].(frequency := frequency)]);
    forall g | g in w'.order ensures BucketOk(w', g, empty) { assert BucketOk(w, g, empty); }
    forall g, e | g in w'.order && g in w'.members && g in w'.buckets && e in w'.members[g]
      ensures MemberOk(w', g, e, {key})
    {
      OutApart(w, key, g, empty, {key}, nextRef);
      assert MemberOk(w, g, e, {key});
    }
    forall k | k in w'.dataNodeMap && k != key ensures CachedOk(w', k) { assert CachedOk(w, k); }
  }

  /** A node for a key that is not cached. */
  ghost predicate NewNode(w: State, w': State, key: Name, d: Ref)
  {
    && key !in w.dataNodeMap && d !in w.nodes && d !in w.data.next && d !in w.data.prev && d in w'.nodes
    && w' == w.(nodes := w.nodes[d := DataNode(key, 1)], dataNodeMap := w.dataNodeMap[key := d],
                data := Links(w.data.next[d := Nil], w.data.prev[d := Nil]))
  }

  lemma NewNodeBuckets(w: State, w': State, key: Name, d: Ref)
    requires BucketsOk(w, {}) && NewNode(w, w', key, d)
    ensures BucketsOk(w', {})
  {
    forall g | g in w'.order ensures BucketOk(w', g, {}) { assert BucketOk(w, g, {}); }
  }

  lemma NewNodeKeeps(w: State, w': State, key: Name, d: Ref, nextRef: Ref)
    requires Inv(w, {}, {}, nextRef) && NewNode(w, w', key, d) && d == nextRef
    ensures Inv(w', {}, {key}, nextRef + 1)
  {
    NewNodeBuckets(w, w', key, d);
    NewNodeMembers(w, w', key, d);
    NewNodeMaps(w, w', key, d);
    hide BucketsOk, MembersOk, MapsOk, Linked;
  }

  lemma NewNodeMembers(w: State, w': State, key: Name, d: Ref)
    requires MembersOk(w, {}) && NewNode(w, w', key, d)
    ensures MembersOk(w', {key})
  {
    forall g, e | g in w'.order && g in w'.members && g in w'.buckets && e in w'.members[g]
      ensures MemberOk(w', g, e, {key})
    {
      assert MemberOk(w, g, e, {});
    }
  }

  lemma NewNodeMaps(w: State, w': State, key: Name, d: Ref)
    requires MapsOk(w, {}) && NewNode(w, w', key, d)
    ensures MapsOk(w', {key})
  {
    forall k | k in w'.dataNodeMap && k != key ensures CachedOk(w', k) { assert CachedOk(w, k); }
  }

  /** A key that is in no bucket leaves the map. */
  lemma ForgetKeeps(w: State, key: Name, empty: set<Ref>, nextRef: Ref)
    requires Inv(w, empty, {key}, nextRef)
    ensures Inv(w.(dataNodeMap := w.dataNodeMap - {key}), empty, {}, nextRef)
  {
    var w' := w.(dataNodeMap := w.dataNodeMap - {key});
    forall g | g in w'.order ensures BucketOk(w', g, empty) { assert BucketOk(w, g, empty); }
    forall g, e | g in w'.order && g in w'.members && g in w'.buckets && e in w'.members[g]
      ensures MemberOk(w', g, e, {})
    {
      assert MemberOk(w, g, e, {key});
    }
    forall k | k in w'.dataNodeMap ensures CachedOk(w', k) { assert CachedOk(w, k); }
  }

  // ---- the list as shelves ----

  ghost function Names(nodes: map<Ref, DataNode>, ds: seq<Ref>): (names: seq<Name>)
    ensures |names| == |ds|
  {
    seq(|ds|, i requires 0 <= i < |ds| => if ds[i] in nodes then nodes[ds[i]].key else "")
  }

  ghost function ShelfOf(w: State, f: Ref): Shelf
  {
    if f in w.buckets && f in w.members then Shelf(w.buckets[f].frequency, Names(w.nodes, w.members[f]))
    else Shelf(0, [])
  }

  ghost function View(w: State): (l: seq<Shelf>)
    ensures |l| == |w.order|
  {
    seq(|w.order|, i requires 0 <= i < |w.order| => ShelfOf(w, w.order[i]))
  }

  lemma NamesApart(w: State, f: Ref, empty: set<Ref>, out: set<Name>, nextRef: Ref)
    requires Inv(w, empty, out, nextRef) && f in w.order
    ensures f in w.members && Unrepeated(w.members[f]) && Unrepeated(Names(w.nodes, w.members[f]))
  {
    assert BucketOk(w, f, empty);
    var ds := w.members[f];
    forall i, j | 0 <= i < j < |ds| ensures Names(w.nodes, ds)[i] != Names(w.nodes, ds)[j] {
      assert MemberOk(w, f, ds[i], out) && MemberOk(w, f, ds[j], out);
    }
  }

  /** The shelf of a cached file is the first that has its name. */
  lemma ViewFinds(w: State, f: Ref, i: nat, k: nat, empty: set<Ref>, nextRef: Ref)
    requires Inv(w, empty, {}, nextRef) && k < |w.order| && w.order[k] == f && f in w.members && i < |w.members[f]|
    ensures w.members[f][i] in w.nodes && f in w.buckets
    ensures Find(View(w), w.nodes[w.members[f][i]].key, 0) == k
    ensures View(w)[k].count == w.buckets[f].frequency
  {
    var d := w.members[f][i];
    assert BucketOk(w, f, empty) && MemberOk(w, f, d, {});
    var key := w.nodes[d].key;
    assert View(w)[k].names[i] == key;
    forall j | 0 <= j < k ensures key !in View(w)[j].names {
      var g := w.order[j];
      assert BucketOk(w, g, empty);
      BucketsApart(w, f, g, empty, {}, nextRef);
      forall m | 0 <= m < |w.members[g]| ensures View(w)[j].names[m] != key {
        assert MemberOk(w, g, w.members[g][m], {});
      }
    }
    FindAt(View(w), key, 0, k);
  }

  lemma ViewAbsent(w: State, key: Name, nextRef: Ref)
    requires Inv(w, {}, {}, nextRef)
    ensures key in w.dataNodeMap <==> Held(View(w), key)
  {
    if key in w.dataNodeMap {
      CachedFacts(w, key, nextRef);
      var d := w.dataNodeMap[key];
      var f := w.freqNodeMap[w.nodes[d].frequency];
      var k :| 0 <= k < |w.order| && w.order[k] == f;
      var i :| 0 <= i < |w.members[f]| && w.members[f][i] == d;
      ViewFinds(w, f, i, k, {}, nextRef);
    } else {
      forall j | 0 <= j < |w.order| ensures key !in View(w)[j].names {
        var g := w.order[j];
        assert BucketOk(w, g, {});
        forall m | 0 <= m < |w.members[g]| ensures View(w)[j].names[m] != key {
          assert MemberOk(w, g, w.members[g][m], {});
        }
      }
      FindAt(View(w), key, 0, |w.order|);
    }
  }

  lemma ViewAge(w: State, key: Name, nextRef: Ref)
    requires Inv(w, {}, {}, nextRef) && key in w.dataNodeMap && w.dataNodeMap[key] in w.nodes
    ensures Held(View(w), key) && View(w)[Find(View(w), key, 0)].count == w.nodes[w.dataNodeMap[key]].frequency
  {
    CachedFacts(w, key, nextRef);
    var d := w.dataNodeMap[key];
    var f := w.freqNodeMap[w.nodes[d].frequency];
    var k :| 0 <= k < |w.order| && w.order[k] == f;
    var i :| 0 <= i < |w.members[f]| && w.members[f][i] == d;
    ViewFinds(w, f, i, k, {}, nextRef);
    FreqFacts(w, w.nodes[d].frequency, {}, {}, nextRef);
  }

  /** A change of bucket f is a change of its shelf. */
  lemma ViewOne(w: State, w': State, f: Ref, k: nat)
    requires k < |w.order| && w.order[k] == f && w'.order == w.order && w'.nodes == w.nodes
    requires forall j :: 0 <= j < |w.order| && j != k ==> w.order[j] != f
    requires f in w'.buckets && f in w'.members
    requires w'.buckets == w.buckets[f := w'.buckets[f]] && w'.members == w.members[f := w'.members[f]]
    ensures View(w') == View(w)[k := Shelf(w'.buckets[f].frequency, Names(w.nodes, w'.members[f]))]
  {
    var l := View(w)[k := Shelf(w'.buckets[f].frequency, Names(w.nodes, w'.members[f]))];
    hide Names;
    forall j | 0 <= j < |w.order| ensures View(w')[j] == l[j] {
      if j != k { assert w.order[j] != f; }
    }
  }

  lemma NamesMore(nodes: map<Ref, DataNode>, s: seq<Ref>, d: Ref)
    requires d in nodes
    ensures Names(nodes, s + [d]) == Names(nodes, s) + [nodes[d].key]
  {
  }

  lemma NamesSkip(nodes: map<Ref, DataNode>, s: seq<Ref>, i: nat, t: seq<Ref>)
    requires Skips(s, i, t) && Unrepeated(Names(nodes, s))
    ensures Names(nodes, t) == Minus(Names(nodes, s), Names(nodes, s)[i])
  {
    MinusAt(Names(nodes, s), i);
    forall j | 0 <= j < |t| ensures Names(nodes, t)[j] == Without(Names(nodes, s), i)[j] {
      assert t[j] == if j < i then s[j] else s[j + 1];
    }
  }

  lemma ViewTakenOut(w: State, w': State, f: Ref, i: nat, k: nat, empty: set<Ref>, nextRef: Ref)
    requires Inv(w, empty, {}, nextRef) && TakenOut(w, w', f, i) && k < |w.order| && w.order[k] == f
    ensures w.members[f][i] in w.nodes && View(w') == TakenFrom(View(w), k, w.nodes[w.members[f][i]].key)
  {
    NamesApart(w, f, empty, {}, nextRef);
    OrderApart(w, empty, {}, nextRef);
    assert MemberOk(w, f, w.members[f][i], {});
    NamesSkip(w.nodes, w.members[f], i, w'.members[f]);
    hide Linked, Unrepeated, Elsewhere, Inv, Skips, Loose, Names;
    ViewOne(w, w', f, k);
    assert View(w)[k] == Shelf(w.buckets[f].frequency, Names(w.nodes, w.members[f]));
  }

  lemma OrderApart(w: State, empty: set<Ref>, out: set<Name>, nextRef: Ref)
    requires Inv(w, empty, out, nextRef)
    ensures forall i, j :: 0 <= i < |w.order| && 0 <= j < |w.order| && i != j ==> w.order[i] != w.order[j]
  {
  }

  lemma ViewPutIn(w: State, w': State, f: Ref, key: Name, k: nat, empty: set<Ref>, out: set<Name>, nextRef: Ref)
    requires Inv(w, empty, out, nextRef) && PutIn(w, w', f, key) && k < |w.order| && w.order[k] == f
    requires w.nodes[w.dataNodeMap[key]].key == key
    ensures View(w') == View(w)[k := View(w)[k].(names := View(w)[k].names + [key])]
  {
    OrderApart(w, empty, out, nextRef);
    hide Linked, Elsewhere, Inv, Names;
    NamesMore(w.nodes, w.members[f], w.dataNodeMap[key]);
    ViewOne(w, w', f, k);
    assert View(w)[k] == Shelf(w.buckets[f].frequency, Names(w.nodes, w.members[f]));
  }

  lemma ViewInserted(w: State, w': State, f: Ref, i: nat)
    requires Inserts(w.order, i, f, w'.order) && f !in w.order && w'.nodes == w.nodes && f in w'.buckets
    requires w'.buckets == w.buckets[f := w'.buckets[f]] && w'.members == w.members[f := []]
    ensures View(w') == View(w)[..i] + [Shelf(w'.buckets[f].frequency, [])] + View(w)[i..]
  {
    assert Names(w.nodes, []) == [];
    var l := View(w)[..i] + [Shelf(w'.buckets[f].frequency, [])] + View(w)[i..];
    forall j | 0 <= j < |l| ensures View(w')[j] == l[j] {
      assert w'.order[j] == if j < i then w.order[j] else if j == i then f else w.order[j - 1];
    }
  }

  lemma ViewDropped(w: State, w': State, i: nat)
    requires Skips(w.order, i, w'.order) && w' == w.(order := w'.order, ends := w'.ends, freq := w'.freq,
                                                     freqNodeMap := w'.freqNodeMap)
    ensures View(w') == Without(View(w), i)
  {
    forall j | 0 <= j < |w'.order| ensures View(w')[j] == Without(View(w), i)[j] {
      assert w'.order[j] == if j < i then w.order[j] else w.order[j + 1];
    }
  }

  /** The shelf for a count is the bucket on the map under it. */
  lemma ViewCount(w: State, count: nat, k: nat, empty: set<Ref>, out: set<Name>, nextRef: Ref)
    requires Inv(w, empty, out, nextRef)
    requires if count in w.freqNodeMap then k < |w.order| && w.order[k] == w.freqNodeMap[count] else k == |w.order|
    ensures FindCount(View(w), count, 0) == k
  {
    OrderApart(w, empty, out, nextRef);
    forall j | 0 <= j < |w.order|
      ensures View(w)[j].count == count <==> count in w.freqNodeMap && w.order[j] == w.freqNodeMap[count]
    {
      assert BucketOk(w, w.order[j], empty);
    }
    FindCountAt(View(w), count, 0, k);
  }

  lemma ViewPlace(w: State, i: nat, s: nat, count: nat, empty: set<Ref>, out: set<Name>, nextRef: Ref)
    requires Inv(w, empty, out, nextRef) && s < |w.order| && Follows(w.order, i, w.order[s], count, w.buckets)
    ensures s < i <= |w.order| && Place(View(w), count, s + 1) == i
  {
    OrderApart(w, empty, out, nextRef);
    var j :| 0 <= j < i <= |w.order| && w.order[j] == w.order[s] && (forall k :: j < k < i ==>
        w.buckets[w.order[k]].frequency < count) && (i < |w.order| ==> w.buckets[w.order[i]].frequency >= count);
    assert j == s;
    forall k | 0 <= k < |w.order| ensures View(w)[k].count == w.buckets[w.order[k]].frequency {
      assert BucketOk(w, w.order[k], empty);
    }
    Shelves.PlaceAt(View(w), count, s + 1, i);
  }

  lemma ViewRecount(w: State, d: Ref, frequency: nat)
    requires d in w.nodes
    ensures View(w.(nodes := w.nodes[d := w.nodes[d].(frequency := frequency)])) == View(w)
  {
    var nodes' := w.nodes[d := w.nodes[d].(frequency := frequency)];
    forall f ensures ShelfOf(w.(nodes := nodes'), f) == ShelfOf(w, f) {
      if f in w.members { assert Names(nodes', w.members[f]) == Names(w.nodes, w.members[f]); }
    }
  }

  /** A node no bucket has makes no difference. */
  lemma ViewNewNode(w: State, w': State, d: Ref, empty: set<Ref>, nextRef: Ref)
    requires Inv(w, empty, {}, nextRef) && d !in w.nodes && d in w'.nodes && w'.nodes == w.nodes[d := w'.nodes[d]]
    requires w'.order == w.order && w'.buckets == w.buckets && w'.members == w.members
    ensures View(w') == View(w)
  {
    forall j | 0 <= j < |w.order| ensures View(w')[j] == View(w)[j] {
      var f := w.order[j];
      assert BucketOk(w, f, empty);
      forall m | 0 <= m < |w.members[f]| ensures w.members[f][m] in w.nodes {
        assert MemberOk(w, f, w.members[f][m], {});
      }
      assert Names(w'.nodes, w.members[f]) == Names(w.nodes, w.members[f]);
    }
  }

  lemma ViewForgets(w: State, key: Name)
    ensures View(w.(dataNodeMap := w.dataNodeMap - {key})) == View(w)
  {
  }

  /** How often each cached file has been used. */
  ghost function Counts(w: State): map<Name, nat>
  {
    map k | k in w.dataNodeMap && w.dataNodeMap[k] in w.nodes :: w.nodes[w.dataNodeMap[k]].frequency
  }

  class LfuList {
    const data: LinkStore
    const freq: LinkStore
    var nodes: map<Ref, DataNode>
    var buckets: map<Ref, Bucket>
    var ends: Ends
    var dataNodeMap: map<Name, Ref>
    var freqNodeMap: map<nat, Ref>
    var cacheAge: nat
    const marks: Marks
    var nextRef: Ref
    ghost var order: seq<Ref>
    ghost var members: map<Ref, seq<Ref>>

    ghost function St(): State
      reads this, data, freq
    {
      State(nodes, buckets, ends, dataNodeMap, freqNodeMap, data.Ptrs(), freq.Ptrs(), order, members)
    }

    ghost predicate Valid(empty: set<Ref>, out: set<Name>)
      reads this, data, freq
    {
      data != freq && var kept := Inv(St(), empty, out, nextRef); kept
    }

    constructor (marks: Marks)
      ensures this.marks == marks
      ensures Valid({}, {}) && Counts(St()) == map[] && cacheAge == 0 && fresh(data) && fresh(freq) && order == []
    {
      this.marks := marks;
      data := new LinkStore();
      freq := new LinkStore();
      nodes, buckets, ends, dataNodeMap := map[], map[], Ends(Nil, Nil), map[];
      freqNodeMap, cacheAge, nextRef := map[], 0, 0;
      order, members := [], map[];
    }

    /** Takes node d out of bucket f. */
    method RemoveFrom(f: Ref, d: Ref, ghost i: nat, ghost empty: set<Ref>)
      requires Valid(empty, {}) && f in order && f in members && f in buckets && i < |members[f]| && members[f][i] == d
      modifies this`buckets, this`members, data
      ensures d in nodes && Valid(empty + {f}, {nodes[d].key}) && TakenOut(old(St()), St(), f, i)
    {
      hide Inv, Linked, Elsewhere, Unrepeated;
      ghost var w := St();
      BucketFacts(w, f, empty, {}, nextRef);
      ghost var s := members[f];
      ghost var t := s[..i] + s[i + 1..];
      var list := data.Remove(buckets[f].list, d, s, i, t);
      buckets := buckets[f := buckets[f].(list := list, size := buckets[f].size - 1)];
      members := members[f := t];
      TakeOutKeeps(w, St(), f, i, empty, nextRef);
    }

    /** Puts the node of a key that is in no bucket at the end of bucket f. */
    method PushTo(f: Ref, key: Name, ghost empty: set<Ref>)
      requires Valid(empty, {key}) && f in order && f in buckets && key in dataNodeMap && dataNodeMap[key] in nodes
      requires nodes[dataNodeMap[key]].frequency == buckets[f].frequency
      modifies this`buckets, this`members, data
      ensures Valid(empty - {f}, {}) && PutIn(old(St()), St(), f, key)
    {
      hide Inv;
      ghost var w := St();
      BucketFacts(w, f, empty, {key}, nextRef);
      OutApart(w, key, f, empty, {key}, nextRef);
      OutLoose(w, key, empty, nextRef);
      var d := dataNodeMap[key];
      var list := data.Push(buckets[f].list, d, members[f]);
      buckets := buckets[f := buckets[f].(list := list, size := buckets[f].size + 1)];
      members := members[f := members[f] + [d]];
      PutInKeeps(w, St(), f, key, empty, nextRef);
    }

    /** The last of the buckets from `start` on that count less than `frequency`, or `start` itself. */
    method LastBelow(frequency: nat, start: Ref) returns (p: Ref, ghost j: nat)
      requires Linked(freq.Ptrs(), ends, order) && start in order && forall g :: g in order ==> g in buckets
      ensures j < |order| && order[j] == p && Follows(order, j + 1, start, frequency, buckets)
    {
      p := start;
      j :| j < |order| && order[j] == p;
      ghost var j0 := j;
      assert freq.next[p] == if j + 1 < |order| then At(order[j + 1]) else Nil;
      while freq.next[p] != Nil && frequency > buckets[freq.next[p].r].frequency
        invariant j0 <= j < |order| && order[j] == p && order[j0] == start
        invariant forall k :: j0 < k <= j ==> buckets[order[k]].frequency < frequency
        invariant freq.next[p] == if j + 1 < |order| then At(order[j + 1]) else Nil
        decreases |order| - j
      {
        p := freq.next[p].r;
        j := j + 1;
        assert freq.next[p] == if j + 1 < |order| then At(order[j + 1]) else Nil;
      }
    }

    /** Links bucket f in behind `start` and the buckets after it that count less. */
    method InsertSorted(frequency: nat, start: Ref, f: Ref) returns (ghost i: nat)
      requires Linked(freq.Ptrs(), ends, order) && start in order && f !in order && Loose(freq.Ptrs(), f)
      requires forall g :: g in order ==> g in buckets
      modifies this`ends, this`order, freq
      ensures Linked(freq.Ptrs(), ends, order) && Inserts(old(order), i, f, order)
      ensures Follows(old(order), i, start, frequency, buckets)
      ensures freq.next.Keys == old(freq.next.Keys) && freq.prev.Keys == old(freq.prev.Keys)
    {
      hide Linked, Follows;
      ghost var j;
      var p;
      p, j := LastBelow(frequency, start);
      i := j + 1;
      ghost var t := order[..i] + [f] + order[i..];
      ends := freq.InsertAfter(ends, p, f, order, j, t);
      order := t;
    }

    /** Makes a bucket node and links it in: alone, or after `start` or the first bucket. */
    method LinkBucket(frequency: nat, start: Ptr) returns (f: Ref, ghost i: nat)
      requires Linked(freq.Ptrs(), ends, order) && nextRef !in freq.next && nextRef !in freq.prev && nextRef !in order
      requires (start.At? ==> start.r in order) && forall g :: g in order ==> g in buckets
      modifies this`order, this`ends, this`nextRef, freq
      ensures f == old(nextRef) && nextRef == f + 1 && Linked(freq.Ptrs(), ends, order)
      ensures Inserts(old(order), i, f, order)
      ensures old(order) != [] ==>
        Follows(old(order), i, if start.At? then start.r else old(order)[0], frequency, buckets)
      ensures freq.next.Keys == old(freq.next.Keys) + {f} && freq.prev.Keys == old(freq.prev.Keys) + {f}
    {
      hide Linked, Unrepeated, Follows;
      f := nextRef;
      nextRef := nextRef + 1;
      freq.Add(f);
      AddedLoose(old(freq.Ptrs()), freq.Ptrs(), ends, order, f);
      i := 0;
      if ends.first == Nil && ends.last == Nil {
        OnlyOne(freq.Ptrs(), ends, order, f);
        ends, order := Ends(At(f), At(f)), [f];
      } else {
        FirstOf(freq.Ptrs(), ends, order);
        var p := if start.At? then start.r else ends.first.r;
        i := InsertSorted(frequency, p, f);
      }
    }

    /** addFrequency with a new bucket: after `start`, or the first bucket, and after the buckets that
        follow it with a smaller count. */
    method AddFrequency(frequency: nat, start: Ptr, ghost empty: set<Ref>, ghost out: set<Name>)
      returns (f: Ref, ghost i: nat)
      requires Valid(empty, out) && frequency !in freqNodeMap && (start.At? ==> start.r in order)
      modifies this`buckets, this`members, this`order, this`ends, this`freqNodeMap, this`nextRef, freq
      ensures Valid(empty + {f}, out) && f in order && f in buckets && buckets[f].frequency == frequency
      ensures forall g :: g in old(order) ==> g != f && g in order && g in old(buckets) && g in old(members)
      ensures buckets == old(buckets)[f := buckets[f]] && members == old(members)[f := []]
      ensures f !in old(order) && Inserts(old(order), i, f, order)
      ensures old(order) != [] ==>
        Follows(old(order), i, if start.At? then start.r else old(order)[0], frequency, old(buckets))
    {
      hide Inv, Linked, Allocated, Unrepeated, Inserts, Follows;
      ghost var w := St();
      FreshRef(w, empty, out, nextRef);
      f, i := LinkBucket(frequency, start);
      buckets := buckets[f := Bucket(frequency, Ends(Nil, Nil), 0)];
      freqNodeMap := freqNodeMap[frequency := f];
      members := members[f := []];
      InsertMember(w.order, i, f, order);
      AddKeeps(w, St(), f, i, empty, out, nextRef);
    }

    /** deleteFrequency of a bucket that is empty. */
    method DeleteFrequency(frequency: nat, ghost empty: set<Ref>, ghost out: set<Name>) returns (ghost i: nat)
      requires Valid(empty, out) && frequency in freqNodeMap && freqNodeMap[frequency] in members
      requires members[freqNodeMap[frequency]] == []
      modifies this`order, this`ends, this`freqNodeMap, freq
      ensures Valid(empty - {old(freqNodeMap[frequency])}, out)
      ensures Skips(old(order), i, order) && old(order)[i] == old(freqNodeMap[frequency])
    {
      hide Inv, Linked, Allocated;
      ghost var w := St();
      var f := freqNodeMap[frequency];
      FreqFacts(w, frequency, empty, out, nextRef);
      i :| 0 <= i < |order| && order[i] == f;
      ghost var t := order[..i] + order[i + 1..];
      ends := freq.Remove(ends, f, order, i, t);
      order := t;
      freqNodeMap := freqNodeMap - {frequency};
      DropKeeps(w, St(), i, empty, out, nextRef);
    }

    /** Puts the node of a key that is in no bucket in the bucket for its count, made if need be. */
    method Settle(key: Name, start: Ptr, ghost s: nat, ghost empty: set<Ref>)
      requires Valid(empty, {key}) && key in dataNodeMap && dataNodeMap[key] in nodes
      requires if start.At? then s < |order| && order[s] == start.r else s == 0
      requires nodes[dataNodeMap[key]].key == key
      modifies this`buckets, this`members, this`order, this`ends, this`freqNodeMap, this`nextRef, data, freq
      ensures Valid(empty, {})
      ensures forall f :: f in old(order) ==> f in order
      ensures s < |old(order)| ==> s < |order| && order[s] == old(order)[s]
      ensures View(St()) == Settled(old(View(St())), key, nodes[dataNodeMap[key]].frequency, s)
    {
      hide Inv, View, Settled, PutIn;
      var count := nodes[dataNodeMap[key]].frequency;
      if count in freqNodeMap {
        SettleOld(key, count, s, empty);
      } else {
        SettleNew(key, count, start, s, empty);
      }
    }

    method SettleOld(key: Name, count: nat, ghost s: nat, ghost empty: set<Ref>)
      requires Valid(empty, {key}) && count in freqNodeMap && key in dataNodeMap && dataNodeMap[key] in nodes
      requires nodes[dataNodeMap[key]] == DataNode(key, count)
      modifies this`buckets, this`members, data
      ensures Valid(empty, {}) && View(St()) == Settled(old(View(St())), key, count, s)
    {
      hide Inv, View, PutIn;
      ghost var w := St();
      var f := freqNodeMap[count];
      FreqFacts(w, count, empty, {key}, nextRef);
      ghost var k :| 0 <= k < |order| && order[k] == f;
      ViewCount(w, count, k, empty, {key}, nextRef);
      PushTo(f, key, empty);
      ViewPutIn(w, St(), f, key, k, empty, {key}, nextRef);
      Fewer(St(), empty - {f}, empty, {}, nextRef);
    }

    method SettleNew(key: Name, count: nat, start: Ptr, ghost s: nat, ghost empty: set<Ref>)
      requires Valid(empty, {key}) && count !in freqNodeMap && key in dataNodeMap && dataNodeMap[key] in nodes
      requires nodes[dataNodeMap[key]] == DataNode(key, count)
      requires if start.At? then s < |order| && order[s] == start.r else s == 0
      modifies this`buckets, this`members, this`order, this`ends, this`freqNodeMap, this`nextRef, data, freq
      ensures Valid(empty, {})
      ensures forall f :: f in old(order) ==> f in order
      ensures s < |old(order)| ==> s < |order| && order[s] == old(order)[s]
      ensures View(St()) == Settled(old(View(St())), key, count, s)
    {
      hide Inv, View, PutIn, Follows, Settled, Inserts;
      ghost var w, ref := St(), nextRef;
      ghost var i;
      var f;
      f, i := AddFrequency(count, start, empty, {key});
      ghost var v := St();
      ViewInserted(w, v, f, i);
      InsertedAt(w.order, i, f, v.order);
      PushTo(f, key, empty + {f});
      ViewPutIn(v, St(), f, key, i, empty + {f}, {key}, nextRef);
      Fewer(St(), empty + {f} - {f}, empty, {}, nextRef);
      ViewCount(w, count, |w.order|, empty, {key}, ref);
      if w.order != [] { ViewPlace(w, i, s, count, empty, {key}, ref); }
      InsertedShelf(View(w), View(v), View(St()), key, count, s, i);
    }

    /** Deletes bucket f if it is empty. */
    method Tidy(f: Ref, ghost k: nat)
      requires Valid({f}, {}) && k < |order| && order[k] == f
      modifies this`order, this`ends, this`freqNodeMap, freq
      ensures Valid({}, {}) && View(St()) == Tidied(old(View(St())), k)
    {
      hide Inv;
      ghost var w := St();
      BucketFacts(w, f, {f}, {}, nextRef);
      if buckets[f].size == 0 {
        ghost var i := DeleteFrequency(buckets[f].frequency, {f}, {});
        OrderApart(w, {f}, {}, nextRef);
        ViewDropped(w, St(), i);
        assert {f} - {f} == {};
      } else {
        NotEmpty(w, f, nextRef);
      }
    }

    /** promote: one use more, and the age of the cache on top. */
    method Promote(key: Name)
      requires Valid({}, {}) && key in dataNodeMap
      modifies this, data, freq
      ensures Valid({}, {}) && cacheAge == old(cacheAge) && key in old(Counts(St()))
      ensures Counts(St()) == old(Counts(St()))[key := (old(Counts(St()))[key] + 1 + cacheAge) % WORD]
      ensures View(St()) == Promoted(old(View(St())), key, cacheAge)
    {
      hide Inv, Counts, TakenOut, View, Settled, Tidied, TakenFrom;
      var d, f;
      ghost var k;
      d, f, k := Detach(key);
      RecountKeeps(St(), key, (nodes[d].frequency + 1 + cacheAge) % WORD, {f}, nextRef);
      ViewRecount(St(), d, (nodes[d].frequency + 1 + cacheAge) % WORD);
      nodes := nodes[d := nodes[d].(frequency := (nodes[d].frequency + 1 + cacheAge) % WORD)];
      Settle(key, At(f), k, {f});
      Tidy(f, k);
      CountsChanged(old(St()), St(), key);
    }

    /** Takes the node of a cached key out of its bucket, the one on shelf k. */
    method Detach(key: Name) returns (d: Ref, f: Ref, ghost k: nat)
      requires Valid({}, {}) && key in dataNodeMap
      modifies this`buckets, this`members, data
      ensures Valid({f}, {key}) && dataNodeMap[key] == d && d in nodes && nodes[d].key == key
      ensures k < |order| && order[k] == f && Find(old(View(St())), key, 0) == k
      ensures old(View(St()))[k].count == nodes[d].frequency
      ensures View(St()) == TakenFrom(old(View(St())), k, key)
      ensures forall n :: n in dataNodeMap ==> dataNodeMap[n] in nodes && (n != key ==> dataNodeMap[n] != d)
      ensures f in old(buckets) && f in buckets && buckets[f].size == old(buckets)[f].size - 1
    {
      hide Inv, TakenOut, View, TakenFrom;
      ghost var w := St();
      CachedFacts(w, key, nextRef);
      d := dataNodeMap[key];
      f := freqNodeMap[nodes[d].frequency];
      FreqFacts(w, nodes[d].frequency, {}, {}, nextRef);
      ghost var i: nat :| i < |members[f]| && members[f][i] == d;
      k :| 0 <= k < |order| && order[k] == f;
      ViewFinds(w, f, i, k, {}, nextRef);
      RemoveFrom(f, d, i, {});
      ViewTakenOut(w, St(), f, i, k, {}, nextRef);
      TakenSize(w, St(), f, i);
      assert {} + {f} == {f};
    }

    /** get: a lookup counts as a use. */
    method Get(key: Name) returns (found: bool)
      requires Valid({}, {})
      modifies this, data, freq
      ensures Valid({}, {}) && found == (key in old(dataNodeMap)) && cacheAge == old(cacheAge)
      ensures found ==> key in old(Counts(St()))
      ensures found ==>
        Counts(St()) == old(Counts(St()))[key := (old(Counts(St()))[key] + 1 + cacheAge) % WORD]
      ensures !found ==> Counts(St()) == old(Counts(St()))
      ensures View(St()) == if found then Promoted(old(View(St())), key, cacheAge) else old(View(St()))
    {
      hide Inv, Counts, View, Promoted;
      found := key in dataNodeMap;
      if found { Promote(key); }
    }

    /** Takes a cached key out of its bucket and off the map. */
    method Drop(key: Name)
      requires Valid({}, {}) && key in dataNodeMap
      modifies this`buckets, this`members, this`dataNodeMap, this`order, this`ends, this`freqNodeMap, data, freq
      ensures Valid({}, {}) && dataNodeMap == old(dataNodeMap) - {key}
      ensures View(St()) == Removed(old(View(St())), key)
      ensures var k := Find(old(View(St())), key, 0);
        && k < |old(order)| && old(order)[k] in old(buckets) && old(order)[k] in buckets
        && buckets[old(order)[k]].size == old(buckets)[old(order)[k]].size - 1
    {
      hide Inv, View, Tidied, TakenFrom;
      var d, f;
      ghost var k;
      d, f, k := Detach(key);
      ghost var w := St();
      assert old(order)[k] == f;
      ForgetKeeps(w, key, {f}, nextRef);
      ViewForgets(w, key);
      dataNodeMap := dataNodeMap - {key};
      Tidy(f, k);
    }

    /** delete: the cache is now as old as the file that left it. */
    method Delete(key: Name)
      requires Valid({}, {})
      modifies this, data, freq
      ensures Valid({}, {}) && Counts(St()) == old(Counts(St())) - {key}
      ensures key in old(dataNodeMap) ==> key in old(Counts(St())) && cacheAge == old(Counts(St()))[key]
      ensures key !in old(dataNodeMap) ==> cacheAge == old(cacheAge)
      ensures View(St()) == Removed(old(View(St())), key) && (key in old(dataNodeMap) <==> Held(old(View(St())), key))
      ensures Held(old(View(St())), key) ==> cacheAge == old(View(St()))[Find(old(View(St())), key, 0)].count
    {
      hide Inv, View;
      ViewAbsent(St(), key, nextRef);
      if key in dataNodeMap {
        CachedFacts(St(), key, nextRef);
        var count := nodes[dataNodeMap[key]].frequency;
        ViewAge(St(), key, nextRef);
        Drop(key);
        cacheAge := count;
      }
      CountsWithout(old(St()), St(), {key});
    }

    /** Evicts the file at the front of the first bucket. */
    method EvictFirst() returns (victim: Name)
      requires Valid({}, {}) && ends.first != Nil
      modifies this`buckets, this`members, this`dataNodeMap, this`order, this`ends, this`freqNodeMap, data, freq
      ensures Valid({}, {}) && victim in old(dataNodeMap) && dataNodeMap == old(dataNodeMap) - {victim}
      ensures var l := old(View(St()));
        && l != [] && l[0].names != [] && victim == l[0].names[0]
        && View(St()) == if |l[0].names| == 1 then l[1..] else [l[0].(names := l[0].names[1..])] + l[1..]
      ensures var f := old(ends.first.r); f in buckets && (buckets[f].size == 0 <==> |old(View(St()))[0].names| == 1)
    {
      hide Inv, View;
      ghost var w := St();
      FirstFacts(w, nextRef);
      FirstShelf(w, nextRef);
      victim := nodes[buckets[ends.first.r].list.first.r].key;
      FindAt(View(w), victim, 0, 0);
      Drop(victim);
      RemovedFront(View(w));
      FrontEmptied(w, St(), w.ends.first.r, nextRef, victim);
    }

    /** Evicts files when and as long as the disk is too full, looking again at the disk when a bucket has become empty:
        the files of the first j buckets, all of them. */
    method Evict(key: Name, usage: Usage) returns (evicted: seq<Name>, ghost j: nat)
      requires Valid({}, {}) && key !in dataNodeMap
      modifies this`buckets, this`members, this`dataNodeMap, this`order, this`ends, this`freqNodeMap, data, freq
      ensures Valid({}, {}) && key !in dataNodeMap && dataNodeMap == old(dataNodeMap) - Set(evicted)
      ensures var l := old(View(St()));
        Clears(usage, marks, |l|, j) && evicted == Joined(l[..j]) && View(St()) == l[j..]
    {
      hide Inv, View, Joined, Left, Set, Clears;
      NoneGone(dataNodeMap);
      ghost var l, m := View(St()), 0;
      j, evicted := 0, [];
      NoShelves(l);
      var readings := 0;
      var full := usage(0) > marks.upper && usage(0) > marks.lower;
      assert Clearing(usage, marks, 0, full);
      hide Clearing;
      while full && ends.first != Nil
        invariant Valid({}, {}) && key !in dataNodeMap && dataNodeMap == old(dataNodeMap) - Set(evicted)
        invariant j <= |l| && Left(l, j, m, evicted, View(St())) && (!full ==> m == 0) && readings == j
        invariant Clearing(usage, marks, j, full)
        decreases |dataNodeMap|
      {
        var f := ends.first.r;
        ghost var was, before := dataNodeMap, View(St());
        var victim := EvictFirst();
        SmallerMap(was, victim);
        GoneMore(old(dataNodeMap), evicted, victim);
        j, m := OneLess(l, j, m, evicted, before, View(St()));
        evicted := evicted + [victim];
        if buckets[f].size == 0 {
          ClearingMore(usage, marks, readings);
          readings := readings + 1;
          full := usage(readings) > marks.lower;
        }
      }
      if ends.first == Nil { NothingLeft(St(), nextRef); }
      LeftWhole(l, j, m, evicted, View(St()));
      ClearingEnds(usage, marks, |l|, j, full);
    }

    /** put: a use of a cached file, or a file that is new to the cache, for which all files of the first j buckets may
        have to go, bucket after bucket and each from its front. */
    method Put(key: Name, usage: Usage) returns (evicted: seq<Name>, ghost j: nat)
      requires Valid({}, {})
      modifies this, data, freq
      ensures Valid({}, {}) && cacheAge == old(cacheAge)
      ensures if key in old(dataNodeMap)
              then && evicted == [] && key in old(Counts(St()))
                   && Counts(St()) == old(Counts(St()))[key := (old(Counts(St()))[key] + 1 + cacheAge) % WORD]
              else Counts(St()) == (old(Counts(St())) - Set(evicted))[key := 1]
      ensures key in old(dataNodeMap) <==> Held(old(View(St())), key)
      ensures var l := old(View(St()));
        if key in old(dataNodeMap) then View(St()) == Promoted(l, key, cacheAge)
        else Clears(usage, marks, |l|, j) && evicted == Joined(l[..j]) && View(St()) == Settled(l[j..], key, 1, 0)
    {
      hide Inv, Counts, View, Settled, Promoted, Joined;
      evicted, j := [], 0;
      ViewAbsent(St(), key, nextRef);
      if key in dataNodeMap {
        Promote(key);
      } else {
        evicted, j := Evict(key, usage);
        AddNew(key, old(St()), evicted);
      }
    }

    /** The end of put: a node for a key that is not cached. */
    method AddNew(key: Name, ghost w0: State, ghost evicted: seq<Name>)
      requires Valid({}, {}) && key !in dataNodeMap
      requires nodes == w0.nodes && dataNodeMap == w0.dataNodeMap - Set(evicted)
      modifies this`buckets, this`members, this`order, this`ends, this`freqNodeMap, this`nextRef
      modifies this`nodes, this`dataNodeMap, data, freq
      ensures Valid({}, {}) && Counts(St()) == (Counts(w0) - Set(evicted))[key := 1]
      ensures View(St()) == Settled(old(View(St())), key, 1, 0)
    {
      hide Inv, Counts, View, Settled;
      ghost var w := St();
      CountsWithout(w0, w, Set(evicted));
      FreshRef(w, {}, {}, nextRef);
      AllCached(w, nextRef);
      var d := nextRef;
      nextRef := nextRef + 1;
      data.Add(d);
      nodes := nodes[d := DataNode(key, 1)];
      dataNodeMap := dataNodeMap[key := d];
      NewNodeKeeps(w, St(), key, d, d);
      ViewNewNode(w, St(), d, {}, d);
      Settle(key, Nil, 0, {});
      CountsAdded(w, St(), key, d);
    }

    /** One operation of a run, and the files it evicted. */
    method Apply(op: Op) returns (evicted: seq<Name>)
      requires Valid({}, {})
      modifies this, data, freq
      ensures Valid({}, {})
      ensures Tally(Counts(St()), cacheAge) == Next(old(Tally(Counts(St()), cacheAge)), op, evicted)
      ensures var s := Stock(old(View(St())), old(cacheAge));
        Stock(View(St()), cacheAge) == Step(s, op, marks) && evicted == Evicted(s, op, marks)
    {
      hide Inv, Counts, View, Settled, Promoted, Removed, Joined, Clears, Cleared;
      CountsKeys(St(), nextRef);
      ViewAbsent(St(), op.key, nextRef);
      NotRemoved(View(St()), op.key);
      evicted := [];
      match op {
        case Insert(key, usage) =>
          ghost var j;
          evicted, j := Put(key, usage);
          if !Held(old(View(St())), key) { ClearsOne(usage, marks, |old(View(St()))|, j); }
        case Use(key) => var found := Get(key);
        case Erase(key) => Delete(key);
      }
    }
  }

  /** The counts of the cached files, and the age of the cache. */
  datatype Tally = Tally(counts: map<Name, nat>, age: nat)

  /** A use adds one and the age of the cache; a new file starts at one, after the evictions; a file that is deleted
      leaves the cache as old as its count. */
  function Next(t: Tally, op: Op, evicted: seq<Name>): Tally
  {
    if op.key in t.counts then
      if op.Erase? then Tally(t.counts - {op.key}, t.counts[op.key])
      else t.(counts := t.counts[op.key := (t.counts[op.key] + 1 + t.age) % WORD])
    else if op.Insert? then t.(counts := (t.counts - Set(evicted))[op.key := 1])
    else t
  }

  function After(ops: seq<Op>, gone: seq<seq<Name>>): Tally
    requires |ops| == |gone|
  {
    if ops == [] then Tally(map[], 0)
    else
      var n := |ops| - 1;
      Next(After(ops[..n], gone[..n]), ops[n], gone[n])
  }

  /** After any run of put, get and delete the linked lists are the shelves of the run, an eviction has taken whole
      shelves from the front, the counts are those of the run, and every cached file is in exactly one bucket, the
      one for its count. */
  method Replay(ops: seq<Op>, marks: Marks) returns (l: LfuList, gone: seq<seq<Name>>)
    ensures l.Valid({}, {}) && |gone| == |ops| && Tally(Counts(l.St()), l.cacheAge) == After(ops, gone)
    ensures forall key :: key in After(ops, gone).counts ==> InOneBucket(l.St(), key)
    ensures Stock(View(l.St()), l.cacheAge) == Run(ops, marks)
    ensures forall i :: 0 <= i < |ops| ==> gone[i] == Evicted(Run(ops[..i], marks), ops[i], marks)
  {
    hide Inv, Counts, InOneBucket, View, Step, Evicted;
    l := new LfuList(marks);
    gone := [];
    NoView(l.St());
    for i := 0 to |ops|
      invariant fresh(l) && fresh(l.data) && fresh(l.freq) && l.Valid({}, {}) && |gone| == i && l.marks == marks
      invariant Tally(Counts(l.St()), l.cacheAge) == After(ops[..i], gone)
      invariant Stock(View(l.St()), l.cacheAge) == Run(ops[..i], marks)
      invariant forall j :: 0 <= j < i ==> gone[j] == Evicted(Run(ops[..j], marks), ops[j], marks)
    {
      var evicted := l.Apply(ops[i]);
      assert ops[..i + 1][..i] == ops[..i] && (gone + [evicted])[..i] == gone;
      gone := gone + [evicted];
    }
    assert ops[..|ops|] == ops;
    CountsKeys(l.St(), l.nextRef);
    forall key | key in Counts(l.St()) ensures InOneBucket(l.St(), key) { OneBucket(l.St(), key, l.nextRef); }
  }

  lemma NoView(w: State)
    ensures w.order == [] ==> View(w) == []
  {
  }

  lemma NotRemoved(l: seq<Shelf>, key: Name)
    ensures !Held(l, key) ==> Removed(l, key) == l
  {
  }

  lemma CountsKeys(w: State, nextRef: Ref)
    requires Inv(w, {}, {}, nextRef)
    ensures Counts(w).Keys == w.dataNodeMap.Keys
  {
    AllCached(w, nextRef);
  }

  function Set(s: seq<Name>): set<Name> { set k | k in s }

  /** Of the shelves l the first j are gone, and of the next one the first m files. */
  ghost predicate Left(l: seq<Shelf>, j: nat, m: nat, evicted: seq<Name>, now: seq<Shelf>)
    requires j <= |l|
  {
    if m == 0 then evicted == Joined(l[..j]) && now == l[j..]
    else && j < |l| && m < |l[j].names| && evicted == Joined(l[..j]) + l[j].names[..m]
         && now == [l[j].(names := l[j].names[m..])] + l[j + 1..]
  }

  lemma NoneGone(m: map<Name, Ref>)
    ensures m - Set([]) == m
  {
  }

  lemma GoneMore(m: map<Name, Ref>, evicted: seq<Name>, victim: Name)
    ensures m - Set(evicted) - {victim} == m - Set(evicted + [victim])
  {
    assert Set(evicted + [victim]) == Set(evicted) + {victim};
  }

  lemma LeftWhole(l: seq<Shelf>, j: nat, m: nat, evicted: seq<Name>, now: seq<Shelf>)
    requires j <= |l| && Left(l, j, m, evicted, now) && (m == 0 || now == [])
    ensures evicted == Joined(l[..j]) && now == l[j..]
  {
  }

  lemma NoShelves(l: seq<Shelf>)
    ensures Left(l, 0, 0, [], l)
  {
    assert l[..0] == [] && l[0..] == l;
  }

  lemma OneLess(l: seq<Shelf>, j: nat, m: nat, evicted: seq<Name>, now: seq<Shelf>, next: seq<Shelf>)
    returns (j': nat, m': nat)
    requires j <= |l| && Left(l, j, m, evicted, now) && now != [] && now[0].names != []
    requires next == if |now[0].names| == 1 then now[1..] else [now[0].(names := now[0].names[1..])] + now[1..]
    ensures j' <= |l| && Left(l, j', m', evicted + [now[0].names[0]], next)
    ensures |now[0].names| != 1 ==> m' > 0 && j' == j
    ensures |now[0].names| == 1 ==> m' == 0 && j' == j + 1
  {
    var names := l[j].names;
    assert now[0].names == names[m..] && now[1..] == l[j + 1..];
    JoinedMore(l, j);
    assert names[..m] + [names[m]] == names[..m + 1];
    if |now[0].names| == 1 {
      assert names[..m + 1] == names;
      j', m' := j + 1, 0;
    } else {
      assert names[m..][1..] == names[m + 1..];
      j', m' := j, m + 1;
    }
  }

  lemma FirstShelf(w: State, nextRef: Ref)
    requires Inv(w, {}, {}, nextRef) && w.ends.first.At?
    ensures w.order != [] && w.order[0] == w.ends.first.r && View(w)[0].names != [] && w.ends.first.r in w.buckets
    ensures var p := w.buckets[w.ends.first.r].list.first;
      p.At? && p.r in w.nodes && w.nodes[p.r].key == View(w)[0].names[0]
  {
    var f := w.order[0];
    assert BucketOk(w, f, {}) && w.order[0] in w.order;
    assert MemberOk(w, f, w.members[f][0], {});
  }

  lemma TakenSize(w: State, w': State, f: Ref, i: nat)
    requires TakenOut(w, w', f, i)
    ensures f in w.buckets && f in w'.buckets && w'.buckets[f].size == w.buckets[f].size - 1
  {
  }

  lemma NothingLeft(w: State, nextRef: Ref)
    requires Inv(w, {}, {}, nextRef) && w.ends.first == Nil
    ensures View(w) == []
  {
  }

  /** The bucket at the front is empty when its only file has gone. */
  lemma FrontEmptied(w: State, w': State, f: Ref, nextRef: Ref, victim: Name)
    requires Inv(w, {}, {}, nextRef) && w.order != [] && w.order[0] == f && f in w'.buckets
    requires f in w.buckets && w'.buckets[f].size == w.buckets[f].size - 1
    ensures w'.buckets[f].size == 0 <==> |View(w)[0].names| == 1
  {
    assert BucketOk(w, f, {});
  }

  lemma InsertedAt(order: seq<Ref>, i: nat, f: Ref, order': seq<Ref>)
    requires Inserts(order, i, f, order')
    ensures i < |order'| && order'[i] == f && |order'| == |order| + 1 && f in order'
    ensures forall j :: 0 <= j < i ==> order'[j] == order[j]
    ensures forall g :: g in order ==> g in order'
  {
    forall g | g in order ensures g in order' {
      var j :| 0 <= j < |order| && order[j] == g;
      assert order'[if j < i then j else j + 1] == g;
    }
  }

  lemma InsertedShelf(l: seq<Shelf>, mid: seq<Shelf>, l': seq<Shelf>, key: Name, count: nat, s: nat, i: nat)
    requires i <= |l| && mid == l[..i] + [Shelf(count, [])] + l[i..]
    requires l' == mid[i := mid[i].(names := mid[i].names + [key])]
    requires FindCount(l, count, 0) == |l| && (l == [] ==> s == 0)
    requires l != [] ==> s < i && s < |l| && Place(l, count, s + 1) == i
    ensures l' == Settled(l, key, count, s)
  {
    assert [] + [key] == [key];
    assert l' == l[..i] + [Shelf(count, [key])] + l[i..];
    if l == [] { assert l' == l + [Shelf(count, [key])]; }
  }

  /** The file that has been longest in the first bucket. */
  ghost predicate FrontFile(w: State, key: Name)
  {
    && w.order != [] && w.order[0] in w.members && w.members[w.order[0]] != []
    && w.members[w.order[0]][0] in w.nodes && w.nodes[w.members[w.order[0]][0]].key == key
  }

  lemma FirstFacts(w: State, nextRef: Ref)
    requires Inv(w, {}, {}, nextRef) && w.ends.first != Nil
    ensures w.ends.first.r in w.buckets && w.buckets[w.ends.first.r].list.first.At?
    ensures var d := w.buckets[w.ends.first.r].list.first.r;
      d in w.nodes && w.nodes[d].key in w.dataNodeMap && FrontFile(w, w.nodes[d].key)
  {
    var f := w.order[0];
    assert BucketOk(w, f, {});
    assert MemberOk(w, f, w.members[f][0], {});
  }

  lemma SmallerMap(m: map<Name, Ref>, key: Name)
    requires key in m
    ensures |m - {key}| < |m|
  {
    assert (m - {key}).Keys == m.Keys - {key};
    assert |m - {key}| == |(m - {key}).Keys| && |m| == |m.Keys|;
  }

  lemma AllCached(w: State, nextRef: Ref)
    requires Inv(w, {}, {}, nextRef)
    ensures forall k :: k in w.dataNodeMap ==> w.dataNodeMap[k] in w.nodes
  {
    forall k | k in w.dataNodeMap ensures w.dataNodeMap[k] in w.nodes { assert CachedOk(w, k); }
  }

  lemma CountsAdded(w: State, w': State, key: Name, d: Ref)
    requires d !in w.nodes && w'.nodes == w.nodes[d := DataNode(key, 1)] && w'.dataNodeMap == w.dataNodeMap[key := d]
    requires forall k :: k in w.dataNodeMap ==> w.dataNodeMap[k] in w.nodes
    ensures Counts(w') == Counts(w)[key := 1]
  {
  }

  lemma CountsChanged(w: State, w': State, key: Name)
    requires key in w.dataNodeMap && w'.dataNodeMap == w.dataNodeMap
    requires forall k :: k in w.dataNodeMap ==>
      w.dataNodeMap[k] in w.nodes && (k != key ==> w.dataNodeMap[k] != w.dataNodeMap[key])
    requires var d := w.dataNodeMap[key]; d in w.nodes && d in w'.nodes && w'.nodes == w.nodes[d := w'.nodes[d]]
    ensures key in Counts(w) && Counts(w)[key] == w.nodes[w.dataNodeMap[key]].frequency
    ensures Counts(w') == Counts(w)[key := w'.nodes[w.dataNodeMap[key]].frequency]
  {
  }

  lemma CountsWithout(w: State, w': State, gone: set<Name>)
    requires w'.nodes == w.nodes && w'.dataNodeMap == w.dataNodeMap - gone
    ensures Counts(w') == Counts(w) - gone
  {
  }

  ghost predicate InOneBucket(w: State, key: Name)
  {
    && key in w.dataNodeMap && w.dataNodeMap[key] in w.nodes
    && var d := w.dataNodeMap[key];
       && w.nodes[d].key == key
       && (forall f :: f in w.order && f in w.members && f in w.buckets ==>
             (d in w.members[f] <==> w.buckets[f].frequency == w.nodes[d].frequency))
       && exists f :: f in w.order && f in w.members && d in w.members[f]
  }

  /** A cached file is in exactly one bucket, the one for its count. */
  lemma OneBucket(w: State, key: Name, nextRef: Ref)
    requires Inv(w, {}, {}, nextRef) && key in w.dataNodeMap
    ensures InOneBucket(w, key)
  {
    var d := w.dataNodeMap[key];
    CachedFacts(w, key, nextRef);
    forall f | f in w.order && f in w.members && f in w.buckets
      ensures d in w.members[f] <==> w.buckets[f].frequency == w.nodes[d].frequency
    {
      assert BucketOk(w, f, {});
      if d in w.members[f] { assert MemberOk(w, f, d, {}); }
    }
  }

  /** A larger set of buckets may be empty. */
  lemma Fewer(w: State, empty: set<Ref>, empty': set<Ref>, out: set<Name>, nextRef: Ref)
    requires Inv(w, empty, out, nextRef) && empty <= empty'
    ensures Inv(w, empty', out, nextRef)
  {
    forall f | f in w.order ensures BucketOk(w, f, empty') { assert BucketOk(w, f, empty); }
  }

  lemma NotEmpty(w: State, f: Ref, nextRef: Ref)
    requires Inv(w, {f}, {}, nextRef) && f in w.members && w.members[f] != []
    ensures Inv(w, {}, {}, nextRef)
  {
    forall g | g in w.order ensures BucketOk(w, g, {}) { assert BucketOk(w, g, {f}); }
  }

  lemma CachedFacts(w: State, key: Name, nextRef: Ref)
    requires Inv(w, {}, {}, nextRef) && key in w.dataNodeMap
    ensures var d := w.dataNodeMap[key]; d in w.nodes && w.nodes[d].key == key && w.nodes[d].frequency in w.freqNodeMap
    ensures var d := w.dataNodeMap[key]; var f := w.freqNodeMap[w.nodes[d].frequency];
      f in w.order && f in w.buckets && f in w.members && d in w.members[f]
    ensures forall k :: k in w.dataNodeMap ==>
      w.dataNodeMap[k] in w.nodes && (k != key ==> w.dataNodeMap[k] != w.dataNodeMap[key])
  {
    assert CachedOk(w, key);
    forall k | k in w.dataNodeMap ensures w.dataNodeMap[k] in w.nodes && w.nodes[w.dataNodeMap[k]].key == k {
      assert CachedOk(w, k);
    }
  }

  /** Position i comes after `start` and the buckets behind it that count less, and before any that does not. */
  ghost predicate Follows(order: seq<Ref>, i: nat, start: Ref, frequency: nat, buckets: map<Ref, Bucket>)
  {
    && (forall k :: 0 <= k < |order| ==> order[k] in buckets)
    && exists j :: 0 <= j < i <= |order| && order[j] == start && (forall k :: j < k < i ==>
        buckets[order[k]].frequency < frequency)
                   && (i < |order| ==> buckets[order[i]].frequency >= frequency)
  }

  lemma FreshRef(w: State, empty: set<Ref>, out: set<Name>, nextRef: Ref)
    requires Inv(w, empty, out, nextRef)
    ensures nextRef !in w.freq.next && nextRef !in w.freq.prev && nextRef !in w.data.next && nextRef !in w.data.prev
    ensures nextRef !in w.nodes
    ensures nextRef !in w.order && Inv(w, empty, out, nextRef + 1) && Linked(w.freq, w.ends, w.order)
    ensures forall g :: g in w.order ==> g in w.buckets && g in w.members
    ensures forall r :: r in w.freq.next || r in w.freq.prev ==> r < nextRef
  {
    forall g | g in w.order ensures g in w.buckets && g in w.members { assert BucketOk(w, g, empty); }
  }

  lemma AddedLoose(l: Links, l': Links, e: Ends, s: seq<Ref>, f: Ref)
    requires Linked(l, e, s) && f !in l.next && f !in l.prev && l' == Links(l.next[f := Nil], l.prev[f := Nil])
    ensures Linked(l', e, s) && Loose(l', f)
  {
  }

  lemma OnlyOne(l: Links, e: Ends, s: seq<Ref>, f: Ref)
    requires Linked(l, e, s) && e.first == Nil && Loose(l, f)
    ensures s == [] && Linked(l, Ends(At(f), At(f)), [f])
  {
  }

  lemma FirstOf(l: Links, e: Ends, s: seq<Ref>)
    requires Linked(l, e, s) && !(e.first == Nil && e.last == Nil)
    ensures s != [] && e.first == At(s[0]) && s[0] in s
  {
  }

  lemma FreqFacts(w: State, frequency: nat, empty: set<Ref>, out: set<Name>, nextRef: Ref)
    requires Inv(w, empty, out, nextRef) && frequency in w.freqNodeMap
    ensures var f := w.freqNodeMap[frequency];
      f in w.order && f in w.buckets && w.buckets[f].frequency == frequency && f in w.members
    ensures Linked(w.freq, w.ends, w.order) && forall r :: r in w.freq.next || r in w.freq.prev ==> r < nextRef
  {
    assert BucketOk(w, w.freqNodeMap[frequency], empty);
  }

  lemma BucketFacts(w: State, f: Ref, empty: set<Ref>, out: set<Name>, nextRef: Ref)
    requires Inv(w, empty, out, nextRef) && f in w.order
    ensures f in w.members && f in w.buckets && Linked(w.data, w.buckets[f].list, w.members[f])
    ensures w.buckets[f].size == |w.members[f]|
    ensures w.buckets[f].frequency in w.freqNodeMap && w.freqNodeMap[w.buckets[f].frequency] == f
  {
    assert BucketOk(w, f, empty);
  }

  lemma OutLoose(w: State, key: Name, empty: set<Ref>, nextRef: Ref)
    requires Inv(w, empty, {key}, nextRef)
    ensures key in w.dataNodeMap && w.dataNodeMap[key] in w.nodes && w.nodes[w.dataNodeMap[key]].key == key
    ensures Loose(w.data, w.dataNodeMap[key])
  {
  }
}
