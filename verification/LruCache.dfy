/** The streaming component's cache of blocks: a list in order of use, a map from keys to list nodes,
    and the number of bytes held. Blocks with unsaved changes are never evicted. */
module LruCache {
  import opened Sequences

  type Key = int
  type Ref = nat

  datatype Block = Block(startIndex: int, endIndex: int, dirty: bool)

  /** A list node: the node itself, and the pair it carries. */
  datatype Node = Node(id: Ref, key: Key, block: Block)

  function Size(b: Block): int { b.endIndex - b.startIndex }

  function Total(list: seq<Node>): int { if list == [] then 0 else Size(list[0].block) + Total(list[1..]) }

  lemma {:induction false} TotalSplit(a: seq<Node>, b: seq<Node>)
    ensures Total(a + b) == Total(a) + Total(b)
  {
    if a == [] {
      assert a + b == b;
    } else {
      assert (a + b)[1..] == a[1..] + b;
      TotalSplit(a[1..], b);
    }
  }

  lemma TotalWithout(list: seq<Node>, i: nat, b: Block)
    requires i < |list|
    ensures Total(Without(list, i)) == Total(list) - Size(list[i].block)
    ensures Total(list[i := list[i].(block := b)]) == Total(list) - Size(list[i].block) + Size(b)
    ensures Total([list[i]] + Without(list, i)) == Total(list)
  {
    assert list == list[..i] + ([list[i]] + list[i + 1..]);
    TotalSplit(list[..i], [list[i]] + list[i + 1..]);
    TotalSplit(list[..i], list[i + 1..]);
    var c := list[i].(block := b);
    assert list[i := c] == list[..i] + ([c] + list[i + 1..]);
    TotalSplit(list[..i], [c] + list[i + 1..]);
  }

  class LruCache {
    const capacity: int
    var list: seq<Node>           // most recently used first
    var elements: map<Key, Ref>
    var occupied: int
    var nextRef: Ref

    /** Nodes are distinct, the bytes held are those of the list, and map and list have the same blocks. */
    ghost predicate Valid()
      reads this
    {
      Counted() && Indexed(list, elements)
    }

    ghost predicate Counted()
      reads this
    {
      occupied == Total(list) && Named(list, nextRef)
    }

    constructor (capacity: int)
      ensures Valid() && list == [] && this.capacity == capacity
    {
      this.capacity, list, elements, occupied, nextRef := capacity, [], map[], 0, 0;
    }

    /** The place of a cached key in the list. */
    method Position(key: Key) returns (i: nat)
      requires Valid() && key in elements
      ensures i < |list| && list[i].key == key && list[i].id == elements[key]
    {
      assert Has(list, elements[key]);
      ghost var k: nat :| k < |list| && list[k].id == elements[key];
      i := 0;
      while list[i].id != elements[key]
        invariant i <= k
        decreases k - i
      {
        i := i + 1;
      }
    }

    /** Get: a hit makes the block the most recently used. */
    method Get(key: Key) returns (found: bool, block: Block)
      requires Valid()
      modifies this`list
      ensures Valid() && found == (key in elements)
      ensures found ==> list != [] && list[0].key == key && list[0].block == block && MovedToFront(old(list), list, key)
      ensures !found ==> list == old(list)
    {
      found, block := key in elements, Block(0, 0, false);
      if found {
        var i := Position(key);
        block := list[i].block;
        TotalWithout(list, i, block);
        FrontIndexed(list, i, elements, nextRef);
        hide Indexed, Named, Total;
        list := [list[i]] + (list[..i] + list[i + 1..]);
        assert list == [old(list)[i]] + Without(old(list), i);
      }
    }

    /** Resize: the bytes held follow the block. */
    method Resize(key: Key, newEndIndex: int) returns (ok: bool)
      requires Valid()
      modifies this`list, this`occupied
      ensures Valid() && ok == (key in elements)
      ensures if ok then Resized(old(list), list, key, newEndIndex) else list == old(list)
    {
      ok := key in elements;
      if ok {
        var i := Position(key);
        var b := list[i].block;
        TotalWithout(list, i, b.(endIndex := newEndIndex));
        ResizeIndexed(list, i, b.(endIndex := newEndIndex), elements, nextRef);
        hide Indexed, Named, Total;
        occupied := occupied + (newEndIndex - b.endIndex);
        list := list[i := list[i].(block := b.(endIndex := newEndIndex))];
        assert list == old(list)[i := old(list)[i].(block := b.(endIndex := newEndIndex))];
      }
    }

    method Remove(key: Key)
      requires Valid()
      modifies this`list, this`occupied, this`elements
      ensures Valid() && elements == old(elements) - {key} && occupied == Total(list)
      ensures if key in old(elements)
              then exists i :: 0 <= i < |old(list)| && old(list)[i].key == key && list == Without(old(list), i)
              else list == old(list)
    {
      hide Indexed, Named, Total;
      if key in elements {
        var i := Position(key);
        TotalWithout(list, i, list[i].block);
        WithoutIndexed(list, i, elements, nextRef);
        occupied := occupied - Size(list[i].block);
        elements := elements - {key};
        list := list[..i] + list[i + 1..];
        assert list == Without(old(list), i);
      }
    }

    /** evict: the least recently used block without unsaved changes goes; none when all have some. */
    method Evict() returns (evicted: bool, ghost at: int)
      requires Valid() && list != []
      modifies this`list, this`occupied, this`elements
      ensures Valid()
      ensures evicted ==> LastClean(old(list), at) && list == Without(old(list), at)
      ensures evicted ==> old(list)[at].key in old(elements) && elements == old(elements) - {old(list)[at].key}
      ensures !evicted ==> list == old(list) && elements == old(elements) && occupied == old(occupied)
      ensures !evicted ==> forall i :: 0 <= i < |list| ==> list[i].block.dirty
    {
      var i := |list| - 1;
      while i >= 0
        invariant -1 <= i < |list| && forall j :: i < j < |list| ==> list[j].block.dirty
      {
        if !list[i].block.dirty {
          assert LastClean(list, i);
          ghost var was := list;
          Remove(list[i].key);
          ghost var k :| 0 <= k < |was| && was[k].key == was[i].key && list == Without(was, k);
          return true, i;
        }
        i := i - 1;
      }
      return false, 0;
    }

    /** Put: a full cache makes room first, and refuses exactly when all its blocks have unsaved changes. The map and
        the list agree afterwards exactly when the key was not cached, or was the one that made room: otherwise its
        old node stays on the list, and its bytes stay counted. */
    method Put(key: Key, value: Block) returns (ok: bool)
      requires Valid() && (occupied >= capacity ==> list != [])
      modifies this
      ensures Counted() && (!ok ==> Valid() && list == old(list) && elements == old(elements))
      ensures ok ==>
        list != [] && list[0].key == key && list[0].block == value && elements.Keys <= old(elements.Keys) + {key}
      ensures ok ==> (Valid() <==> key !in old(elements) || (old(occupied) >= capacity && Victim(old(list), key)))
      ensures ok ==> Made(old(list), list, old(occupied) >= capacity)
      ensures ok <==> old(occupied) < capacity || exists i :: 0 <= i < |old(list)| && !old(list)[i].block.dirty
      ensures ok ==> Spared(old(elements), elements, key, old(list), old(occupied) >= capacity)
    {
      hide Indexed, Has, Without, Spared;
      ghost var start, at := list, 0;
      if occupied >= capacity {
        ok, at := Evict();
        if !ok { return; }
        assert !start[at].block.dirty;
      }
      ok := true;
      ghost var was, mapped := list, elements;
      list := [Node(nextRef, key, value)] + list;
      elements := elements[key := nextRef];
      occupied := occupied + Size(value);
      PutIndexed(was, mapped, list, elements, nextRef, key);
      CachedOrNot(was, mapped, list, key);
      MapKept(old(elements), mapped, elements, start, at, old(occupied) >= capacity, key);
      nextRef := nextRef + 1;
      assert list[1..] == was;
    }
  }

  /** A run of puts of keys that are new to the cache, all of one size: the map and the list stay in step, and
      the cache below its capacity plus one block. */
  method PutAll(c: LruCache, puts: seq<(Key, Block)>, size: nat)
    requires c.Valid() && c.capacity > 0 && Uniform(c.list, size) && c.occupied < c.capacity + size
    requires forall i :: 0 <= i < |puts| ==> puts[i].0 !in c.elements && Size(puts[i].1) == size
    requires forall i, j :: 0 <= i < j < |puts| ==> puts[i].0 != puts[j].0
    modifies c
    ensures c.Valid() && Uniform(c.list, size) && c.occupied < c.capacity + size
  {
    for n := 0 to |puts|
      invariant c.Valid() && Uniform(c.list, size) && c.occupied < c.capacity + size
      invariant forall i :: n <= i < |puts| ==> puts[i].0 !in c.elements
    {
      ghost var list := c.list;
      var ok := c.Put(puts[n].0, puts[n].1);
      if ok { PutBounded(list, c.list, c.capacity, size); }
    }
  }

  /** The block that makes room is the one of this key. */
  ghost predicate Victim(list: seq<Node>, key: Key) { exists i :: LastClean(list, i) && list[i].key == key }

  /** A new node is in front of what was there, less the block that made room for it. */
  ghost predicate Made(list: seq<Node>, list': seq<Node>, full: bool)
  {
    list' != [] && if full then exists i :: LastClean(list, i) && list'[1..] == Without(list, i) else list'[1..] == list
  }

  ghost predicate Uniform(list: seq<Node>, size: nat) { forall i :: 0 <= i < |list| ==> Size(list[i].block) == size }

  /** All other keys are mapped as before, but for the one that made room. */
  ghost predicate Spared(elements: map<Key, Ref>, elements': map<Key, Ref>, key: Key, list: seq<Node>, full: bool)
  {
    forall k :: k in elements && k != key && !(full && Victim(list, k)) ==>
      k in elements' && elements'[k] == elements[k]
  }

  lemma MapKept(elements: map<Key, Ref>, mapped: map<Key, Ref>, elements': map<Key, Ref>, list: seq<Node>, at: int,
                full: bool, key: Key)
    requires if full then LastClean(list, at) && mapped == elements - {list[at].key} else mapped == elements
    requires key in elements' && elements' == mapped[key := elements'[key]]
    ensures Spared(elements, elements', key, list, full)
  {
  }

  lemma CachedOrNot(list: seq<Node>, elements: map<Key, Ref>, list': seq<Node>, key: Key)
    requires Indexed(list, elements) && |list'| == |list| + 1 && list'[1..] == list
    ensures (forall i :: 0 < i < |list'| ==> list'[i].key != key) <==> key !in elements
  {
    assert forall i :: 0 < i < |list'| ==> list'[i] == list[i - 1];
    assert forall i :: 0 <= i < |list| ==> list[i] == list'[i + 1];
    if key in elements {
      assert Has(list, elements[key]);
      var j :| 0 <= j < |list| && list[j].id == elements[key];
      assert list'[j + 1].key == key;
    }
  }

  /** Nodes are distinct, and the next one will be. */
  ghost predicate Named(list: seq<Node>, nextRef: Ref)
  {
    && (forall i :: 0 <= i < |list| ==> list[i].id < nextRef)
    && (forall i, j :: 0 <= i < j < |list| ==> list[i].id != list[j].id)
  }

  /** Each key is mapped to its node, and each node is mapped under its key. */
  ghost predicate Indexed(list: seq<Node>, elements: map<Key, Ref>)
  {
    && (forall i :: 0 <= i < |list| ==> list[i].key in elements && elements[list[i].key] == list[i].id)
    && (forall k :: k in elements ==> Has(list, elements[k]))
    && (forall k, j :: k in elements && j in elements && elements[k] == elements[j] ==> k == j)
  }

  ghost predicate Has(list: seq<Node>, id: Ref) { exists i :: 0 <= i < |list| && list[i].id == id }

  ghost predicate LastClean(list: seq<Node>, i: int)
  {
    0 <= i < |list| && !list[i].block.dirty && forall j :: i < j < |list| ==> list[j].block.dirty
  }

  ghost predicate MovedToFront(list: seq<Node>, list': seq<Node>, key: Key)
  {
    exists i :: 0 <= i < |list| && list[i].key == key && list' == [list[i]] + Without(list, i)
  }

  ghost predicate Resized(list: seq<Node>, list': seq<Node>, key: Key, newEndIndex: int)
  {
    exists i ::
      && 0 <= i < |list| && list[i].key == key
      && list' == list[i := list[i].(block := list[i].block.(endIndex := newEndIndex))]
  }

  /** t is list with its element i at the front. */
  ghost predicate Fronted(list: seq<Node>, i: nat, t: seq<Node>)
  {
    && i < |list| == |t| && t[0] == list[i]
    && forall k {:trigger t[k]} :: 0 < k < |t| ==> t[k] == if k <= i then list[k - 1] else list[k]
  }

  lemma FrontIndexed(list: seq<Node>, i: nat, elements: map<Key, Ref>, nextRef: Ref)
    requires Indexed(list, elements) && i < |list| && Named(list, nextRef)
    ensures Indexed([list[i]] + Without(list, i), elements) && Named([list[i]] + Without(list, i), nextRef)
  {
    var t := [list[i]] + Without(list, i);
    assert Fronted(list, i, t);
    hide Without;
    FrontNamed(list, i, t, nextRef);
    forall k | k in elements ensures Has(t, elements[k]) {
      assert Has(list, elements[k]);
      var j :| 0 <= j < |list| && list[j].id == elements[k];
      assert t[if j == i then 0 else if j < i then j + 1 else j] == list[j];
    }
  }

  lemma FrontNamed(list: seq<Node>, i: nat, t: seq<Node>, nextRef: Ref)
    requires Named(list, nextRef) && Fronted(list, i, t)
    ensures Named(t, nextRef)
  {
  }

  lemma ResizeIndexed(list: seq<Node>, i: nat, b: Block, elements: map<Key, Ref>, nextRef: Ref)
    requires Indexed(list, elements) && i < |list| && Named(list, nextRef)
    ensures Indexed(list[i := list[i].(block := b)], elements) && Named(list[i := list[i].(block := b)], nextRef)
  {
    var t := list[i := list[i].(block := b)];
    forall k | k in elements ensures Has(t, elements[k]) {
      assert Has(list, elements[k]);
      var j :| 0 <= j < |list| && list[j].id == elements[k];
      assert t[j].id == list[j].id;
    }
  }

  lemma WithoutIndexed(list: seq<Node>, i: nat, elements: map<Key, Ref>, nextRef: Ref)
    requires Indexed(list, elements) && i < |list| && Named(list, nextRef)
    ensures Indexed(Without(list, i), elements - {list[i].key}) && Named(Without(list, i), nextRef)
  {
    var t := Without(list, i);
    forall k | k in elements && k != list[i].key ensures Has(t, elements[k]) {
      assert Has(list, elements[k]);
      var j :| 0 <= j < |list| && list[j].id == elements[k];
      assert t[if j < i then j else j - 1] == list[j];
    }
  }

  lemma PutIndexed(list: seq<Node>, elements: map<Key, Ref>, list': seq<Node>, elements': map<Key, Ref>, id: Ref,
                   key: Key)
    requires Indexed(list, elements) && |list'| == |list| + 1 && list'[0].id == id && list'[0].key == key
    requires list'[1..] == list
    requires elements' == elements[key := id] && Named(list, id)
    ensures Indexed(list', elements') <==> forall i :: 0 < i < |list'| ==> list'[i].key != key
  {
    assert forall i :: 0 <= i < |list| ==> list'[i + 1] == list[i];
    if forall i :: 0 < i < |list'| ==> list'[i].key != key {
      forall k | k in elements' ensures Has(list', elements'[k]) {
        if k == key {
          assert list'[0].id == elements'[k];
        } else {
          assert Has(list, elements[k]);
          var j :| 0 <= j < |list| && list[j].id == elements[k];
          assert list'[j + 1] == list[j];
        }
      }
    }
  }

  /** With blocks of one size, a cache that starts below its capacity plus one block stays there. */
  lemma PutBounded(list: seq<Node>, list': seq<Node>, capacity: int, size: nat)
    requires Uniform(list, size) && Total(list) < capacity + size && Made(list, list', Total(list) >= capacity)
    requires Size(list'[0].block) == size
    ensures Total(list') < capacity + size && Uniform(list', size)
  {
    if Total(list) >= capacity {
      var i :| LastClean(list, i) && list'[1..] == Without(list, i);
      TotalWithout(list, i, list[i].block);
    }
    forall i | 0 < i < |list'| ensures Size(list'[i].block) == size { assert list'[i] == list'[1..][i - 1]; }
  }
}
