/** Whether the LFU policy evicts the least used files: exactly as long as the shelves are in order of their counts. */
module ShelfOrder {
  import opened Sequences
  import opened Shelves

  ghost predicate Ordered(l: seq<Shelf>) { forall i, j :: 0 <= i < j < |l| ==> l[i].count < l[j].count }

  /** The file has another use, and its new count, which has wrapped around, is that of no shelf; it gets a shelf behind
      its old one, and does not belong there. */
  ghost predicate Misplaced(l: seq<Shelf>, key: Name, age: nat)
  {
    var i := Find(l, key, 0);
    && i < |l|
    && var count := (l[i].count + 1 + age) % WORD;
    && count < l[i].count && FindCount(l, count, 0) == |l|
    && !(Minus(l[i].names, key) == [] && (i == 0 || l[i - 1].count < count))
  }

  /** The operations that put a shelf in the wrong place: a new file when every file that stays has been used again, and
      a use that wraps the count around. */
  ghost predicate Disorders(s: Stock, op: Op, marks: Marks)
  {
    var l := s.shelves;
    match op
    case Insert(key, usage) =>
      if Held(l, key) then Misplaced(l, key, s.age)
      else var j := Cleared(usage, marks, |l|); j < |l| && l[j].count > 1
    case Use(key) => Misplaced(l, key, s.age)
    case Erase(_) => false
  }

  lemma {:induction false} FindWithin(l: seq<Shelf>, key: Name, i: nat)
    requires i <= |l|
    ensures i <= Find(l, key, i) <= |l|
    decreases |l| - i
  {
    if i < |l| && key !in l[i].names { FindWithin(l, key, i + 1); }
  }

  lemma {:induction false} FindCountFacts(l: seq<Shelf>, count: nat, i: nat)
    requires i <= |l|
    ensures var k := FindCount(l, count, i);
      && i <= k <= |l| && (k < |l| ==> l[k].count == count) && forall j :: i <= j < k ==> l[j].count != count
    decreases |l| - i
  {
    if i < |l| && l[i].count != count { FindCountFacts(l, count, i + 1); }
  }

  lemma {:induction false} PlaceFacts(l: seq<Shelf>, count: nat, i: nat)
    requires i <= |l|
    ensures var k := Place(l, count, i);
      && i <= k <= |l| && (k < |l| ==> l[k].count >= count) && forall j :: i <= j < k ==> l[j].count < count
    decreases |l| - i
  {
    if i < |l| && l[i].count < count { PlaceFacts(l, count, i + 1); }
  }

  lemma SameCounts(l: seq<Shelf>, t: seq<Shelf>)
    requires |l| == |t| && forall i :: 0 <= i < |l| ==> l[i].count == t[i].count
    ensures Ordered(l) <==> Ordered(t)
  {
  }

  lemma InsertedOrdered(l: seq<Shelf>, p: nat, x: Shelf)
    requires Ordered(l) && p <= |l|
    ensures Ordered(l[..p] + [x] + l[p..]) <==>
      (p == 0 || l[p - 1].count < x.count) && (p == |l| || x.count < l[p].count)
  {
    var t := l[..p] + [x] + l[p..];
    assert t[p] == x && (p > 0 ==> t[p - 1] == l[p - 1]) && (p < |l| ==> t[p + 1] == l[p]);
  }

  /** A file with a count of its own gets a shelf in the right place exactly when the shelf it starts from counts
      less. */
  lemma SettledOrdered(l: seq<Shelf>, key: Name, count: nat, s: nat)
    requires Ordered(l) && (s < |l| || l == [])
    ensures Ordered(Settled(l, key, count, s)) <==> FindCount(l, count, 0) < |l| || l == [] || l[s].count < count
  {
    hide Ordered;
    FindCountFacts(l, count, 0);
    var i := FindCount(l, count, 0);
    if i < |l| {
      SameCounts(l, l[i := l[i].(names := l[i].names + [key])]);
    } else if s < |l| {
      PlaceFacts(l, count, s + 1);
      var p := Place(l, count, s + 1);
      InOrder(l, s, p - 1);
      InsertedOrdered(l, p, Shelf(count, [key]));
    } else {
      InsertedOrdered(l, 0, Shelf(count, [key]));
      assert [] + [Shelf(count, [key])] + [] == l + [Shelf(count, [key])];
    }
  }

  lemma InOrder(l: seq<Shelf>, i: nat, j: nat)
    requires Ordered(l) && i <= j < |l|
    ensures i == j || l[i].count < l[j].count
  {
  }

  lemma WithoutOrdered(l: seq<Shelf>, i: nat)
    requires i < |l| && Ordered(l)
    ensures Ordered(Without(l, i))
  {
  }

  lemma RemovedOrdered(l: seq<Shelf>, key: Name)
    requires Ordered(l)
    ensures Ordered(Removed(l, key))
  {
    FindWithin(l, key, 0);
    var i := Find(l, key, 0);
    if i < |l| { WithoutOrdered(TakenFrom(l, i, key), i); }
  }

  lemma PromotedOrdered(l: seq<Shelf>, key: Name, age: nat)
    requires Ordered(l)
    ensures Ordered(Promoted(l, key, age)) <==> !Misplaced(l, key, age)
  {
    hide Ordered, Settled;
    FindWithin(l, key, 0);
    var i := Find(l, key, 0);
    if i < |l| {
      var count := (l[i].count + 1 + age) % WORD;
      FindCountFacts(l, count, 0);
      MovedOrdered(l, key, i, count);
    }
  }

  /** The file leaves shelf i for the one with that count. */
  lemma MovedOrdered(l: seq<Shelf>, key: Name, i: nat, count: nat)
    requires Ordered(l) && i < |l|
    ensures Ordered(Tidied(Settled(TakenFrom(l, i, key), key, count, i), i)) <==>
      || count >= l[i].count || FindCount(l, count, 0) < |l|
      || (Minus(l[i].names, key) == [] && (i == 0 || l[i - 1].count < count))
  {
    var t := TakenFrom(l, i, key);
    SameCounts(l, t);
    hide Ordered;
    SettledOrdered(t, key, count, i);
    FindCountFacts(l, count, 0);
    FindCountAt(t, count, 0, FindCount(l, count, 0));
    OwnCount(l, i);
    if count < l[i].count && FindCount(l, count, 0) == |l| {
      WrappedAround(l, key, i, count);
    } else {
      var u := Settled(t, key, count, i);
      if i < |u| && u[i].names == [] { WithoutOrdered(u, i); }
    }
  }

  lemma OwnCount(l: seq<Shelf>, i: nat)
    requires i < |l|
    ensures FindCount(l, l[i].count, 0) < |l|
  {
    FindCountFacts(l, l[i].count, 0);
  }

  lemma WrappedAround(l: seq<Shelf>, key: Name, i: nat, count: nat)
    requires Ordered(l) && i < |l| && FindCount(l, count, 0) == |l| && count < l[i].count
    ensures Ordered(Tidied(Settled(TakenFrom(l, i, key), key, count, i), i)) <==>
      Minus(l[i].names, key) == [] && (i == 0 || l[i - 1].count < count)
  {
    var t, x := TakenFrom(l, i, key), Shelf(count, [key]);
    SameCounts(l, t);
    FindCountFacts(l, count, 0);
    FindCountAt(t, count, 0, |t|);
    PlaceAt(t, count, i + 1, i + 1);
    InsertedOrdered(t, i + 1, x);
    ReplacedOrdered(l, i, x);
    hide Ordered;
    OutAndIn(l, t, i, x);
  }

  lemma ReplacedOrdered(l: seq<Shelf>, i: nat, x: Shelf)
    requires Ordered(l) && i < |l| && x.count < l[i].count
    ensures Ordered(l[..i] + [x] + l[i + 1..]) <==> i == 0 || l[i - 1].count < x.count
  {
    var t := l[..i] + [x] + l[i + 1..];
    assert t[i] == x && (i > 0 ==> t[i - 1] == l[i - 1]);
  }

  lemma OutAndIn(l: seq<Shelf>, t: seq<Shelf>, i: nat, x: Shelf)
    requires i < |l| == |t| && t == l[i := t[i]]
    ensures Without(t[..i + 1] + [x] + t[i + 1..], i) == l[..i] + [x] + l[i + 1..]
    ensures (t[..i + 1] + [x] + t[i + 1..])[i] == t[i]
  {
  }

  lemma {:induction false} ClearedWithin(usage: Usage, lower: real, shelves: nat, k: nat)
    requires k <= shelves
    ensures k <= ClearedFrom(usage, lower, shelves, k) <= shelves
    decreases shelves - k
  {
    if k < shelves && usage(k) > lower { ClearedWithin(usage, lower, shelves, k + 1); }
  }

  /** Every step, exactly. */
  lemma StepOrdered(s: Stock, op: Op, marks: Marks)
    requires Ordered(s.shelves)
    ensures Ordered(Step(s, op, marks).shelves) <==> !Disorders(s, op, marks)
  {
    var l := s.shelves;
    FindWithin(l, op.key, 0);
    PromotedOrdered(l, op.key, s.age);
    RemovedOrdered(l, op.key);
    if op.Insert? && !Held(l, op.key) {
      ClearedWithin(op.usage, marks.lower, |l|, 0);
      var rest := l[Cleared(op.usage, marks, |l|)..];
      SettledOrdered(rest, op.key, 1, 0);
      FindCountFacts(rest, 1, 0);
    }
  }

  /** A run without such an operation keeps the order. */
  lemma {:induction false} RunOrdered(ops: seq<Op>, marks: Marks)
    requires forall i :: 0 <= i < |ops| ==> !Disorders(Run(ops[..i], marks), ops[i], marks)
    ensures Ordered(Run(ops, marks).shelves)
  {
    if ops != [] {
      var n := |ops| - 1;
      assert forall i :: 0 <= i < n ==> ops[..n][..i] == ops[..i];
      RunOrdered(ops[..n], marks);
      StepOrdered(Run(ops[..n], marks), ops[n], marks);
    }
  }

  lemma {:induction false} JoinedShelf(l: seq<Shelf>, key: Name) returns (k: nat)
    requires key in Joined(l)
    ensures k < |l| && key in l[k].names
  {
    var n := |l| - 1;
    if key in l[n].names { k := n; } else { k := JoinedShelf(l[..n], key); }
  }

  /** What order is for: every file that is evicted has been used less than every file that stays. */
  lemma EvictsLeastUsed(s: Stock, op: Op, marks: Marks, gone: Name, i: nat)
    requires Ordered(s.shelves) && gone in Evicted(s, op, marks)
    requires op.Insert? && Cleared(op.usage, marks, |s.shelves|) <= i < |s.shelves|
    ensures exists k :: 0 <= k < i && gone in s.shelves[k].names && s.shelves[k].count < s.shelves[i].count
  {
    var j := Cleared(op.usage, marks, |s.shelves|);
    var k := JoinedShelf(s.shelves[..j], gone);
    assert s.shelves[k].count < s.shelves[i].count;
  }

  /** Out of order it is not so: of any three files, the first used twice and then the second once, the third evicts
      the first, and the second stays. */
  lemma UsedMoreEvicted(a: Name, b: Name, c: Name, idle: Usage, full: Usage, marks: Marks)
    requires a != b && a != c && b != c && idle(0) <= marks.upper
    requires full(0) > marks.upper && full(0) > marks.lower && full(1) <= marks.lower
    ensures var ops := [Insert(a, idle), Use(a), Insert(b, idle)];
      && Run(ops, marks).shelves == [Shelf(2, [a]), Shelf(1, [b])]
      && Disorders(Run(ops[..2], marks), ops[2], marks)
      && Evicted(Run(ops, marks), Insert(c, full), marks) == [a]
  {
    var ops := [Insert(a, idle), Use(a), Insert(b, idle)];
    assert ops[..3] == ops && ops[..2] == [ops[0], ops[1]] && ops[..2][..1] == [ops[0]] && [ops[0]][..0] == [];
    var one, two := Stock([Shelf(1, [a])], 0), Stock([Shelf(2, [a])], 0);
    assert Run([ops[0]], marks) == one;
    FindAt(one.shelves, a, 0, 0);
    assert Step(one, Use(a), marks) == two by { UsedOnce(a); }
    FindAt(two.shelves, b, 0, 1);
    FindCountAt(two.shelves, 1, 0, 1);
    PlaceAt(two.shelves, 1, 1, 1);
    assert two.shelves[0..] == two.shelves;
    assert Step(two, ops[2], marks) == Stock([Shelf(2, [a]), Shelf(1, [b])], 0);
    FirstGoes(a, b, c, full, marks);
  }

  lemma FirstGoes(a: Name, b: Name, c: Name, full: Usage, marks: Marks)
    requires a != b && a != c && b != c
    requires full(0) > marks.upper && full(0) > marks.lower && full(1) <= marks.lower
    ensures Evicted(Stock([Shelf(2, [a]), Shelf(1, [b])], 0), Insert(c, full), marks) == [a]
  {
    var l := [Shelf(2, [a]), Shelf(1, [b])];
    FindAt(l, c, 0, 2);
    ClearsFrom(full, marks.lower, 2, 0, 1);
    assert l[..1] == [Shelf(2, [a])];
    JoinedMore(l, 0);
    assert l[..0] == [];
  }

  lemma UsedOnce(a: Name)
    ensures Promoted([Shelf(1, [a])], a, 0) == [Shelf(2, [a])]
  {
    var l := [Shelf(1, [a])];
    FindAt(l, a, 0, 0);
    var t := TakenFrom(l, 0, a);
    assert Minus([a], a) == [];
    assert t == [Shelf(1, [])];
    FindCountAt(t, 2, 0, 1);
    PlaceAt(t, 2, 1, 1);
    var u := Settled(t, a, 2, 0);
    assert u == [Shelf(1, []), Shelf(2, [a])];
    assert Without(u, 0) == [Shelf(2, [a])];
  }
}
