/** What the LFU list is for its users: shelves in a row, each with the files that have one use count. */
module Shelves {
  import opened Sequences

  type Name = string

  const WORD := 0x1_0000_0000_0000_0000    // counts are 64-bit and wrap around

  datatype Shelf = Shelf(count: nat, names: seq<Name>)

  /** The first shelf from i on that has the file, or the end. */
  function Find(l: seq<Shelf>, key: Name, i: nat): nat
    requires i <= |l|
    decreases |l| - i
  {
    if i == |l| || key in l[i].names then i else Find(l, key, i + 1)
  }

  /** The first shelf from i on with that count, or the end. */
  function FindCount(l: seq<Shelf>, count: nat, i: nat): nat
    requires i <= |l|
    decreases |l| - i
  {
    if i == |l| || l[i].count == count then i else FindCount(l, count, i + 1)
  }

  /** The first place from i on where no smaller count comes next. */
  function Place(l: seq<Shelf>, count: nat, i: nat): nat
    requires i <= |l|
    decreases |l| - i
  {
    if i == |l| || l[i].count >= count then i else Place(l, count, i + 1)
  }

  function Minus(names: seq<Name>, key: Name): seq<Name>
  {
    if names == [] then [] else if names[0] == key then names[1..] else [names[0]] + Minus(names[1..], key)
  }

  /** Shelf i is taken away when nothing is on it. */
  function Tidied(l: seq<Shelf>, i: nat): seq<Shelf>
  {
    if i < |l| && l[i].names == [] then Without(l, i) else l
  }

  function TakenFrom(l: seq<Shelf>, i: nat, key: Name): seq<Shelf>
    requires i < |l|
  {
    l[i := l[i].(names := Minus(l[i].names, key))]
  }

  /** The file leaves its shelf. */
  function Removed(l: seq<Shelf>, key: Name): seq<Shelf>
  {
    var i := Find(l, key, 0);
    if i < |l| then Tidied(TakenFrom(l, i, key), i) else l
  }

  /** The file goes last on the shelf for its count; a new shelf goes behind shelf s and the smaller ones after it. */
  function Settled(l: seq<Shelf>, key: Name, count: nat, s: nat): seq<Shelf>
  {
    var i := FindCount(l, count, 0);
    if i < |l| then l[i := l[i].(names := l[i].names + [key])]
    else if s < |l| then
      var p := Place(l, count, s + 1);
      if p <= |l| then l[..p] + [Shelf(count, [key])] + l[p..] else l
    else l + [Shelf(count, [key])]
  }

  /** One use more, and the age of the cache on top. */
  function Promoted(l: seq<Shelf>, key: Name, age: nat): seq<Shelf>
  {
    var i := Find(l, key, 0);
    if i < |l| then Tidied(Settled(TakenFrom(l, i, key), key, (l[i].count + 1 + age) % WORD, i), i) else l
  }

  /** The files of these shelves, one shelf after the other and each from its front. */
  function Joined(l: seq<Shelf>): seq<Name>
  {
    if l == [] then [] else Joined(l[..|l| - 1]) + l[|l| - 1].names
  }

  lemma {:induction false} FindAt(l: seq<Shelf>, key: Name, i: nat, k: nat)
    requires i <= k <= |l| && (k < |l| ==> key in l[k].names) && forall j :: i <= j < k ==> key !in l[j].names
    ensures Find(l, key, i) == k
    decreases k - i
  {
    if i < k { FindAt(l, key, i + 1, k); }
  }

  lemma {:induction false} FindCountAt(l: seq<Shelf>, count: nat, i: nat, k: nat)
    requires i <= k <= |l| && (k < |l| ==> l[k].count == count) && forall j :: i <= j < k ==> l[j].count != count
    ensures FindCount(l, count, i) == k
    decreases k - i
  {
    if i < k { FindCountAt(l, count, i + 1, k); }
  }

  lemma {:induction false} PlaceAt(l: seq<Shelf>, count: nat, i: nat, k: nat)
    requires i <= k <= |l| && (k < |l| ==> l[k].count >= count) && forall j :: i <= j < k ==> l[j].count < count
    ensures Place(l, count, i) == k
    decreases k - i
  {
    if i < k { PlaceAt(l, count, i + 1, k); }
  }

  lemma {:induction false} MinusAt(names: seq<Name>, i: nat)
    requires i < |names| && Unrepeated(names)
    ensures Minus(names, names[i]) == Without(names, i)
    decreases |names|
  {
    if i > 0 {
      assert names[1..][i - 1] == names[i];
      MinusAt(names[1..], i - 1);
      assert Without(names, i) == [names[0]] + Without(names[1..], i - 1);
    } else {
      assert Without(names, 0) == names[1..];
    }
  }

  lemma JoinedMore(l: seq<Shelf>, j: nat)
    requires j < |l|
    ensures Joined(l[..j + 1]) == Joined(l[..j]) + l[j].names
  {
    assert l[..j + 1][..j] == l[..j];
  }

  /** Taking the front file of the first shelf. */
  lemma RemovedFront(l: seq<Shelf>)
    requires l != [] && l[0].names != []
    ensures Removed(l, l[0].names[0]) ==
            if |l[0].names| == 1 then l[1..] else [l[0].(names := l[0].names[1..])] + l[1..]
  {
    var key := l[0].names[0];
    FindAt(l, key, 0, 0);
    assert Minus(l[0].names, key) == l[0].names[1..];
    var t := TakenFrom(l, 0, key);
    assert t == [l[0].(names := l[0].names[1..])] + l[1..];
    assert Without(t, 0) == l[1..];
  }

  // ---- runs ----

  /** The disk usage above which files are evicted, and down to which. */
  datatype Marks = Marks(upper: real, lower: real)

  /** What the disk usage is when so many shelves have been cleared. */
  type Usage = nat -> real

  /** Shelves are cleared only when the disk is above the upper mark, and then until it is not above the lower one, or
      all are. */
  ghost predicate Clears(usage: Usage, marks: Marks, shelves: nat, j: nat)
  {
    && j <= shelves
    && (j > 0 ==> usage(0) > marks.upper)
    && (forall k :: 0 <= k < j ==> usage(k) > marks.lower)
    && (j < shelves ==> usage(j) <= marks.lower || (j == 0 && usage(0) <= marks.upper))
  }

  /** After j shelves; `full` says whether more have to go. */
  ghost predicate Clearing(usage: Usage, marks: Marks, j: nat, full: bool)
  {
    && (j > 0 ==> usage(0) > marks.upper && forall k :: 0 <= k < j ==> usage(k) > marks.lower)
    && (full <==> usage(0) > marks.upper && usage(j) > marks.lower)
  }

  lemma ClearingMore(usage: Usage, marks: Marks, j: nat)
    requires Clearing(usage, marks, j, true)
    ensures Clearing(usage, marks, j + 1, usage(j + 1) > marks.lower)
  {
  }

  lemma ClearingEnds(usage: Usage, marks: Marks, shelves: nat, j: nat, full: bool)
    requires Clearing(usage, marks, j, full) && j <= shelves && (full ==> j == shelves)
    ensures Clears(usage, marks, shelves, j)
  {
  }

  function ClearedFrom(usage: Usage, lower: real, shelves: nat, k: nat): nat
    requires k <= shelves
    decreases shelves - k
  {
    if k == shelves || usage(k) <= lower then k else ClearedFrom(usage, lower, shelves, k + 1)
  }

  function Cleared(usage: Usage, marks: Marks, shelves: nat): nat
  {
    if usage(0) <= marks.upper then 0 else ClearedFrom(usage, marks.lower, shelves, 0)
  }

  lemma {:induction false} ClearsFrom(usage: Usage, lower: real, shelves: nat, k: nat, j: nat)
    requires k <= j <= shelves && (forall i :: k <= i < j ==> usage(i) > lower) && (j < shelves ==> usage(j) <= lower)
    ensures ClearedFrom(usage, lower, shelves, k) == j
    decreases j - k
  {
    if k < j { ClearsFrom(usage, lower, shelves, k + 1, j); }
  }

  /** There is one such number of shelves. */
  lemma ClearsOne(usage: Usage, marks: Marks, shelves: nat, j: nat)
    requires Clears(usage, marks, shelves, j)
    ensures j == Cleared(usage, marks, shelves) <= shelves
  {
    if usage(0) > marks.upper { ClearsFrom(usage, marks.lower, shelves, 0, j); }
  }

  datatype Op = Insert(key: Name, usage: Usage) | Use(key: Name) | Erase(key: Name)

  /** The shelves, and the age of the cache. */
  datatype Stock = Stock(shelves: seq<Shelf>, age: nat)

  predicate Held(l: seq<Shelf>, key: Name) { Find(l, key, 0) < |l| }

  /** An operation; for a new file shelves may have to be cleared first. */
  function Step(s: Stock, op: Op, marks: Marks): Stock
  {
    var l := s.shelves;
    match op
    case Insert(key, usage) =>
      var j := Cleared(usage, marks, |l|);
      if Held(l, key) then s.(shelves := Promoted(l, key, s.age))
      else if j <= |l| then s.(shelves := Settled(l[j..], key, 1, 0))
      else s
    case Use(key) => if Held(l, key) then s.(shelves := Promoted(l, key, s.age)) else s
    case Erase(key) =>
      if Held(l, key) then Stock(Removed(l, key), l[Find(l, key, 0)].count) else s
  }

  /** The files that go: none, or all those on the shelves that are cleared. */
  function Evicted(s: Stock, op: Op, marks: Marks): seq<Name>
  {
    if op.Insert? && !Held(s.shelves, op.key) then
      var j := Cleared(op.usage, marks, |s.shelves|);
      if j <= |s.shelves| then Joined(s.shelves[..j]) else []
    else []
  }

  function Run(ops: seq<Op>, marks: Marks): Stock
  {
    if ops == [] then Stock([], 0)
    else
      var n := |ops| - 1;
      Step(Run(ops[..n], marks), ops[n], marks)
  }
}
