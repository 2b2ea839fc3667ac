/** The file cache's LRU policy: an intrusive doubly linked list of files, most recently used first,
    with two markers that cut it into generations. */
module LruPolicy {
  import opened Generations
  import opened Passes
  import opened Sequences

  class Node {
    const name: Name
    var next: Node?
    var prev: Node?
    var usage: int
    var deleted: bool

    constructor (name: Name)
      ensures this.name == name && next == null && prev == null && !deleted
    {
      this.name := name;
      next, prev, usage, deleted := null, null, 0, false;
    }
  }

  /** Distinct nodes, linked both ways in this order, and to nothing outside. */
  ghost predicate Chain(s: seq<Node>)
    reads s
  {
    && (forall i, j :: 0 <= i < j < |s| ==> s[i] != s[j])
    && (forall i, j :: 0 <= i && j == i + 1 < |s| ==> s[i].next == s[j] && s[j].prev == s[i])
    && (s != [] ==> s[0].prev == null && s[|s| - 1].next == null)
  }

  ghost predicate Apart(s: seq<Node>, t: seq<Node>)
  {
    forall i, j :: 0 <= i < |s| && 0 <= j < |t| ==> s[i] != t[j]
  }

  /** The nodes marked deleted are those of limbo. */
  ghost predicate Flagged(list: seq<Node>, limbo: seq<Node>)
    reads list, limbo
  {
    (forall i :: 0 <= i < |list| ==> !list[i].deleted) && forall i :: 0 <= i < |limbo| ==> limbo[i].deleted
  }

  /** Joins the neighbours of a node, and leaves it linked to neither. */
  method CutLinks(node: Node)
    requires node.next != node && node.prev != node && (node.next != null ==> node.next != node.prev)
    modifies node`next, node`prev, (if node.next == null then {} else {node.next})`prev
    modifies (if node.prev == null then {} else {node.prev})`next
    ensures node.next == null && node.prev == null
    ensures old(node.next) != null ==> old(node.next).prev == old(node.prev)
    ensures old(node.prev) != null ==> old(node.prev).next == old(node.next)
  {
    if node.next != null { node.next.prev := node.prev; }
    if node.prev != null { node.prev.next := node.next; }
    node.prev := null;
    node.next := null;
  }

  /** Takes a node out of whatever chain it is in; t is what is left of the chain, and a chain
      apart from it stays as it is. */
  method Unlink(node: Node, ghost s: seq<Node>, ghost i: nat, ghost t: seq<Node>, ghost other: seq<Node>)
    requires Chain(s) && Skips(s, i, t) && s[i] == node
    requires Chain(other) && Apart(s, other)
    modifies s
    ensures Chain(t) && Chain(other)
    ensures node.prev == null && node.next == null
    ensures forall k :: 0 <= k < |s| ==> s[k].deleted == old(s[k].deleted)
    ensures forall k :: 0 <= k < |other| ==> other[k].deleted == old(other[k].deleted)
  {
    assert node.next == if i + 1 < |s| then s[i + 1] else null;
    assert node.prev == if i > 0 then s[i - 1] else null;
    CutLinks(node);
  }

  ghost predicate Prepends(node: Node, s: seq<Node>, t: seq<Node>)
  {
    |t| == |s| + 1 && t[0] == node && forall k {:trigger t[k]} :: 0 < k < |t| ==> t[k] == s[k - 1]
  }

  method PushFront(node: Node, head: Node, ghost s: seq<Node>, ghost u: seq<Node>)
    requires Chain(s) && s != [] && head == s[0] && node !in s && node.prev == null && Prepends(node, s, u)
    modifies node, head
    ensures Chain(u)
    ensures node.deleted == old(node.deleted) && head.deleted == old(head.deleted)
  {
    node.prev := null;
    node.next := head;
    head.prev := node;
  }

  function Names(s: seq<Node>): (ns: seq<Name>)
    ensures |ns| == |s| && forall i :: 0 <= i < |s| ==> ns[i] == s[i].name
  {
    seq(|s|, i requires 0 <= i < |s| => s[i].name)
  }

  function Part(s: seq<Node>, a: nat, b: nat): seq<Name>
    requires a <= b <= |s|
  {
    Names(s[a..b])
  }

  /** The generations of a list whose markers are at positions c and l. */
  function View(list: seq<Node>, c: nat, l: nat, limbo: seq<Node>): Gens
    requires c < l < |list|
  {
    Gens(Part(list, 0, c), Part(list, c + 1, l), Part(list, l + 1, |list|), Names(limbo))
  }

  lemma {:induction false} MinusAt(s: seq<Name>, i: nat)
    requires Unrepeated(s) && i < |s|
    ensures Minus(s, s[i]) == s[..i] + s[i + 1..]
  {
    var rest := s[1..];
    if i == 0 {
      assert s[0] !in rest;
      assert Minus(s, s[0]) == Minus(rest, s[0]) == rest;
    } else {
      assert rest[i - 1] == s[i] != s[0];
      MinusAt(rest, i - 1);
      assert s[..i] == [s[0]] + rest[..i - 1] && rest[i..] == s[i + 1..];
    }
  }

  lemma NamesWithout(s: seq<Node>, i: nat)
    requires i < |s| && Unrepeated(Names(s))
    ensures Names(Without(s, i)) == Minus(Names(s), s[i].name)
  {
    MinusAt(Names(s), i);
  }

  lemma PartBefore(s: seq<Node>, i: nat, a: nat, b: nat)
    requires a <= b <= i < |s|
    ensures Part(Without(s, i), a, b) == Part(s, a, b)
  {
    assert Without(s, i)[a..b] == s[a..b];
  }

  lemma PartAfter(s: seq<Node>, i: nat, a: nat, b: nat)
    requires i < a <= b <= |s|
    ensures Part(Without(s, i), a - 1, b - 1) == Part(s, a, b)
  {
    assert Without(s, i)[a - 1..b - 1] == s[a..b];
  }

  lemma PartAround(s: seq<Node>, i: nat, a: nat, b: nat)
    requires a <= i < b <= |s| && Unrepeated(Part(s, a, b))
    ensures Part(Without(s, i), a, b - 1) == Minus(Part(s, a, b), s[i].name)
    ensures s[i].name in Part(s, a, b)
  {
    WithoutSkips(s, i);
    WithoutSkips(s[a..b], i - a);
    NamesWithout(s[a..b], i - a);
    hide Without;
    assert Without(s, i)[a..b - 1] == Without(s[a..b], i - a);
    assert Part(s, a, b)[i - a] == s[i].name;
  }

  /** The name at position i occurs nowhere else. */
  ghost predicate OnlyAt(list: seq<Node>, c: nat, l: nat, limbo: seq<Node>, i: nat)
    requires c < l < |list| && i < |list|
  {
    var g, n := View(list, c, l, limbo), list[i].name;
    && n !in g.limbo
    && (if i < c then Unrepeated(g.front) else n !in g.front)
    && (if c < i < l then Unrepeated(g.middle) else n !in g.middle)
    && (if l < i then Unrepeated(g.back) else n !in g.back)
  }

  /** Taking a file out of the list takes its name out of the generations. */
  lemma ViewWithout(list: seq<Node>, c: nat, l: nat, limbo: seq<Node>, i: nat, c': nat, l': nat)
    requires c < l < |list| && i < |list| && i != c && i != l && OnlyAt(list, c, l, limbo, i)
    requires c' == (if i < c then c - 1 else c) && l' == (if i < l then l - 1 else l)
    ensures View(Without(list, i), c', l', limbo) == Purged(View(list, c, l, limbo), list[i].name)
  {
    hide Part, Minus;
    if i < c {
      PartAround(list, i, 0, c);
      PartAfter(list, i, c + 1, l);
      PartAfter(list, i, l + 1, |list|);
    } else if i < l {
      PartBefore(list, i, 0, c);
      PartAround(list, i, c + 1, l);
      PartAfter(list, i, l + 1, |list|);
    } else {
      PartBefore(list, i, 0, c);
      PartBefore(list, i, c + 1, l);
      PartAround(list, i, l + 1, |list|);
    }
  }

  /** Names a file, so that where it is listed is looked up for one file at a time. */
  predicate Named(n: Name) { true }

  /** The map holds exactly the files of the list and of limbo, each under its own name; only the
      nodes named in `out` may be mapped and on neither. */
  ghost predicate Indexed(m: map<Name, Node>, list: seq<Node>, c: nat, l: nat, limbo: seq<Node>, out: set<Name>)
  {
    c < l < |list| && var inStep := IndexedParts(m, list, c, l, limbo, out); inStep
  }

  ghost predicate IndexedParts(m: map<Name, Node>, list: seq<Node>, c: nat, l: nat, limbo: seq<Node>, out: set<Name>)
  {
    && c < l < |list| && Unrepeated(list) && Unrepeated(limbo)
    && (forall i :: 0 <= i < |list| && i != c && i != l ==> list[i].name in m && m[list[i].name] == list[i])
    && (forall i :: 0 <= i < |limbo| ==> limbo[i].name in m && m[limbo[i].name] == limbo[i])
    && (forall n :: n in m ==> m[n].name == n && m[n] != list[c] && m[n] != list[l])
    && (forall n {:trigger Named(n)} :: Named(n) && n in m && n !in out ==> m[n] in list || m[n] in limbo)
    && Apart(list, limbo)
  }

  lemma PartNoDup(m: map<Name, Node>, list: seq<Node>, c: nat, l: nat, limbo: seq<Node>, a: nat, b: nat)
    requires Indexed(m, list, c, l, limbo, {}) && a <= b <= |list| && !(a <= c < b) && !(a <= l < b)
    ensures Unrepeated(Part(list, a, b))
  {
    var p := Part(list, a, b);
    forall i, j | 0 <= i < j < |p| ensures p[i] != p[j] {
      assert p[i] == list[a + i].name && p[j] == list[a + j].name;
    }
  }

  lemma PartLacks(m: map<Name, Node>, list: seq<Node>, c: nat, l: nat, limbo: seq<Node>, a: nat, b: nat, node: Node)
    requires Indexed(m, list, c, l, limbo, {}) && a <= b <= |list| && !(a <= c < b) && !(a <= l < b)
    requires node.name in m && m[node.name] == node && forall k :: a <= k < b ==> list[k] != node
    ensures node.name !in Part(list, a, b)
  {
    var p := Part(list, a, b);
    forall i | 0 <= i < |p| ensures p[i] != node.name {
      assert p[i] == list[a + i].name;
    }
  }

  lemma IndexedOnlyAt(m: map<Name, Node>, list: seq<Node>, c: nat, l: nat, limbo: seq<Node>, i: nat)
    requires Indexed(m, list, c, l, limbo, {}) && i < |list| && i != c && i != l
    ensures OnlyAt(list, c, l, limbo, i)
  {
    if i < c { PartNoDup(m, list, c, l, limbo, 0, c); } else { PartLacks(m, list, c, l, limbo, 0, c, list[i]); }
    if c < i < l {
      PartNoDup(m, list, c, l, limbo, c + 1, l);
    } else {
      PartLacks(m, list, c, l, limbo, c + 1, l, list[i]);
    }
    if l < i {
      PartNoDup(m, list, c, l, limbo, l + 1, |list|);
    } else {
      PartLacks(m, list, c, l, limbo, l + 1, |list|, list[i]);
    }
  }

  lemma OutOfList(m: map<Name, Node>, list: seq<Node>, c: nat, l: nat, limbo: seq<Node>, i: nat, t: seq<Node>)
    requires Indexed(m, list, c, l, limbo, {}) && Skips(list, i, t) && i != c && i != l
    ensures var c', l' := if i < c then c - 1 else c, if i < l then l - 1 else l;
      Indexed(m, t, c', l', limbo, {list[i].name}) && t[c'] == list[c] && t[l'] == list[l]
  {
    forall n | Named(n) && n in m && n != list[i].name ensures m[n] in t || m[n] in limbo {
      SkipMember(list, i, t, m[n]);
    }
  }

  lemma OutOfLimbo(m: map<Name, Node>, list: seq<Node>, c: nat, l: nat, limbo: seq<Node>, i: nat, t: seq<Node>)
    requires Indexed(m, list, c, l, limbo, {}) && Skips(limbo, i, t)
    ensures Indexed(m, list, c, l, t, {limbo[i].name})
  {
    forall n | Named(n) && n in m && n != limbo[i].name ensures m[n] in list || m[n] in t {
      SkipMember(limbo, i, t, m[n]);
    }
  }

  lemma PrependMember(node: Node, s: seq<Node>, t: seq<Node>, x: Node)
    requires Prepends(node, s, t)
    ensures x in t <==> x == node || x in s
  {
    if x in s {
      var k :| 0 <= k < |s| && s[k] == x;
      assert t[k + 1] == x;
    }
  }

  lemma IntoList(m: map<Name, Node>, list: seq<Node>, c: nat, l: nat, limbo: seq<Node>, node: Node, t: seq<Node>)
    requires Indexed(m, list, c, l, limbo, {node.name}) && Prepends(node, list, t)
    requires node.name in m && m[node.name] == node && node !in list && node !in limbo
    ensures Indexed(m, t, c + 1, l + 1, limbo, {}) && t[c + 1] == list[c] && t[l + 1] == list[l]
  {
    forall n | Named(n) && n in m ensures m[n] in t || m[n] in limbo { PrependMember(node, list, t, m[n]); }
  }

  lemma ViewPrepend(list: seq<Node>, c: nat, l: nat, limbo: seq<Node>, node: Node, cu: nat, lu: nat)
    requires c < l < |list| && cu == c + 1 && lu == l + 1
    ensures var g := View(list, c, l, limbo); View([node] + list, cu, lu, limbo) == g.(front := [node.name] + g.front)
  {
    var t := [node] + list;
    assert t[0..cu] == [node] + list[0..c];
    assert t[cu + 1..lu] == list[c + 1..l] && t[lu + 1..|t|] == list[l + 1..|list|];
  }

  lemma PrependWorks(node: Node, s: seq<Node>)
    ensures Prepends(node, s, [node] + s)
  {
  }

  /** Moving a listed file to the front keeps the map in step. */
  lemma ListedToFront(m: map<Name, Node>, list: seq<Node>, c: nat, l: nat, limbo: seq<Node>, i: nat,
                      t: seq<Node>, c': nat, l': nat, u: seq<Node>)
    requires Indexed(m, list, c, l, limbo, {}) && Skips(list, i, t) && i != c && i != l && Prepends(list[i], t, u)
    requires c' == (if i < c then c - 1 else c) && l' == (if i < l then l - 1 else l)
    ensures c' < l' < |t| && t[c'] == list[c] && t[l'] == list[l] && Apart(t, limbo)
    ensures list[i] !in t && list[i] !in limbo
    ensures Indexed(m, u, c' + 1, l' + 1, limbo, {})
  {
    OutOfList(m, list, c, l, limbo, i, t);
    SkipMember(list, i, t, list[i]);
    assert list[i] !in limbo;
    IntoList(m, t, c', l', limbo, list[i], u);
  }

  lemma LimboToFront(m: map<Name, Node>, list: seq<Node>, c: nat, l: nat, limbo: seq<Node>, i: nat,
                     t: seq<Node>, u: seq<Node>)
    requires Indexed(m, list, c, l, limbo, {}) && Skips(limbo, i, t) && Prepends(limbo[i], list, u)
    ensures Apart(list, t) && limbo[i] !in t && limbo[i] !in list
    ensures Indexed(m, u, c + 1, l + 1, t, {})
  {
    OutOfLimbo(m, list, c, l, limbo, i, t);
    SkipMember(limbo, i, t, limbo[i]);
    assert limbo[i] !in list;
    IntoList(m, list, c, l, t, limbo[i], u);
  }

  lemma ListedToFrontView(m: map<Name, Node>, list: seq<Node>, c: nat, l: nat, limbo: seq<Node>, i: nat, cu: nat,
                          lu: nat)
    requires Indexed(m, list, c, l, limbo, {}) && i < |list| && i != c && i != l
    requires cu == (if i < c then c else c + 1) && lu == (if i < l then l else l + 1)
    ensures View([list[i]] + Without(list, i), cu, lu, limbo) == Validated(View(list, c, l, limbo), list[i].name)
  {
    hide View, OnlyAt, Purged, IndexedParts, Without;
    IndexedOnlyAt(m, list, c, l, limbo, i);
    ViewWithout(list, c, l, limbo, i, cu - 1, lu - 1);
    WithoutSkips(list, i);
    ViewPrepend(Without(list, i), cu - 1, lu - 1, limbo, list[i], cu, lu);
  }

  lemma LimboToFrontView(m: map<Name, Node>, list: seq<Node>, c: nat, l: nat, limbo: seq<Node>, i: nat, cu: nat,
                         lu: nat)
    requires Indexed(m, list, c, l, limbo, {}) && i < |limbo| && cu == c + 1 && lu == l + 1
    ensures View([limbo[i]] + list, cu, lu, Without(limbo, i)) == Validated(View(list, c, l, limbo), limbo[i].name)
  {
    LimboOnlyAt(m, list, c, l, limbo, i);
    ViewPrepend(list, c, l, Without(limbo, i), limbo[i], cu, lu);
  }

  /** Using the most recently used file again changes nothing. */
  lemma FrontStays(m: map<Name, Node>, list: seq<Node>, c: nat, l: nat, limbo: seq<Node>)
    requires Indexed(m, list, c, l, limbo, {}) && c > 0
    ensures Validated(View(list, c, l, limbo), list[0].name) == View(list, c, l, limbo)
  {
    IndexedOnlyAt(m, list, c, l, limbo, 0);
    var f := Part(list, 0, c);
    assert f[0] == list[0].name;
    MinusAt(f, 0);
    assert [f[0]] + f[1..] == f;
  }

  class LruPolicy {
    var nodeMap: map<Name, Node>
    var head: Node
    var currMarker: Node
    var lastMarker: Node
    const maxEviction: nat
    ghost var list: seq<Node>     // the nodes from head on
    ghost var c: nat              // where currMarker is in it
    ghost var l: nat              // where lastMarker is in it
    ghost var limbo: seq<Node>    // expired nodes detached by a pass that has not finished

    /** The list is a chain from head that holds both markers, current before last, and limbo is a
        chain; the nodes marked deleted are those of limbo. */
    ghost predicate Chained()
      reads this, list, limbo
    {
      && Chain(list) && Chain(limbo)
      && Apart(list, limbo) && c < l < |list| && head == list[0] && list[c] == currMarker && list[l] == lastMarker
      && Flagged(list, limbo)
    }

    /** ... and the map holds exactly the files on the two. */
    ghost predicate Valid()
      reads this, list, limbo
    {
      Indexed(nodeMap, list, c, l, limbo, {}) && var linked := Chained(); linked
    }

    ghost function Gen(): Gens
      reads this
      requires c < l < |list|
    {
      View(list, c, l, limbo)
    }

    constructor (maxEviction: nat)
      ensures Valid() && Gen() == Gens([], [], [], []) && nodeMap == map[] && this.maxEviction == maxEviction
      ensures fresh(list) && fresh(limbo)
    {
      this.maxEviction := maxEviction;
      nodeMap := map[];
      var curr := new Node("__");
      var last := new Node("##");
      curr.next := last;
      last.prev := curr;
      head, currMarker, lastMarker := curr, curr, last;
      list, c, l, limbo := [curr, last], 0, 1, [];
    }

    ghost method SettleList(t: seq<Node>, c': nat, l': nat)
      requires Chain(t) && Chain(limbo) && Apart(t, limbo) && Flagged(t, limbo)
      requires c' < l' < |t| && head == t[0] && t[c'] == currMarker && t[l'] == lastMarker
      modifies this`list, this`c, this`l
      ensures Chained() && list == t && c == c' && l == l'
    {
      list, c, l := t, c', l';
    }

    ghost method SettleLimbo(t: seq<Node>)
      requires Chain(list) && Chain(t) && Apart(list, t) && Flagged(list, t)
      requires c < l < |list| && head == list[0] && list[c] == currMarker && list[l] == lastMarker
      modifies this`limbo
      ensures Chained() && limbo == t
    {
      limbo := t;
    }

    /** Takes a node that is not the head out of the list, which leaves the markers at c' and l', or
        out of limbo; t is what is left of the chain it was in. */
    method TakeOut(node: Node, ghost listed: bool, ghost i: nat, ghost t: seq<Node>, ghost c': nat, ghost l': nat)
      requires Chained() && node != head
      requires listed ==>
        Skips(list, i, t) && list[i] == node && c' < l' < |t| && t[c'] == currMarker && t[l'] == lastMarker
      requires !listed ==> Skips(limbo, i, t) && limbo[i] == node && c' == c && l' == l
      requires Apart(t, if listed then limbo else list)
      modifies this`list, this`limbo, this`c, this`l, list, limbo
      ensures Chained()
      ensures if listed then list == t && limbo == old(limbo) else limbo == t && list == old(list)
      ensures c == c' && l == l' && node.prev == null && node.next == null
      ensures node.deleted == old(node.deleted)
    {
      if listed {
        assert t[0] == head;
      }
      ghost var s, other := if listed then list else limbo, if listed then limbo else list;
      Unlink(node, s, i, t, other);
      if listed { SettleList(t, c', l'); } else { SettleLimbo(t); }
    }

    /** Takes the head, which is a file, out of the list. */
    method TakeHead(node: Node)
      requires Chained() && node == head && c > 0
      modifies this`head, this`list, this`c, this`l, list
      ensures Chained()
      ensures list == old(list[1..]) && c == old(c) - 1 && l == old(l) - 1
      ensures node.prev == null && node.next == null && node.deleted == old(node.deleted)
    {
      assert node.next == list[1];
      head := node.next;
      head.prev := null;
      node.next := null;
      list, c, l := list[1..], c - 1, l - 1;
    }

    /** Puts a node that is on no chain at the head of the list. */
    method PutFirst(node: Node, ghost u: seq<Node>)
      requires Chained() && node !in list && node !in limbo && node.prev == null && !node.deleted
      requires Prepends(node, list, u)
      modifies this`head, this`list, this`c, this`l, node, head
      ensures Chained()
      ensures list == u && c == old(c) + 1 && l == old(l) + 1
      ensures node.deleted == old(node.deleted)
    {
      PushFront(node, head, list, u);
      head := node;
      list, c, l := u, c + 1, l + 1;
    }

    method Relink(node: Node, ghost listed: bool, ghost i: nat, ghost t: seq<Node>,
                  ghost u: seq<Node>, ghost cu: nat, ghost lu: nat, ghost limbo': seq<Node>)
      requires Chained() && node != head && Move(list, c, l, limbo, node, listed, i, t, u, cu, lu, limbo')
      modifies this`head, this`list, this`limbo, this`c, this`l, list, limbo
      ensures Chained() && !node.deleted
      ensures list == u && c == cu && l == lu && limbo == limbo'
    {
      hide Chain, Flagged;
      TakeOut(node, listed, i, t, cu - 1, lu - 1);
      node.deleted, node.usage := false, node.usage + 1;
      PutFirst(node, u);
    }

    /** The part of cacheValidate that runs under the lock, for a mapped file that is not the head. */
    method MoveToFront(node: Node)
      requires Valid() && node.name in nodeMap && nodeMap[node.name] == node && node != head
      modifies this`head, this`list, this`limbo, this`c, this`l, list, limbo
      ensures Valid() && Gen() == Validated(old(Gen()), node.name) && !node.deleted
      ensures Regrouped(old(list), old(limbo), list, limbo)
    {
      hide IndexedParts, MoveParts, Validated, View, Chain, Regrouped;
      ghost var listed, i, t, u, cu, lu, limbo' := PlanMove(nodeMap, list, c, l, limbo, node);
      MoveView(nodeMap, list, c, l, limbo, node, listed, i, t, u, cu, lu, limbo');
      MoveRegroups(list, c, l, limbo, node, listed, i, t, u, cu, lu, limbo');
      Relink(node, listed, i, t, u, cu, lu, limbo');
    }

    /** A file used for the first time. */
    method AddFile(name: Name)
      requires Valid() && name !in nodeMap
      modifies this`nodeMap, this`head, this`list, this`c, this`l, head
      ensures Valid() && Gen() == Validated(old(Gen()), name)
      ensures limbo == old(limbo) && |list| > 0 && fresh(list[0]) && list[1..] == old(list)
      ensures nodeMap == old(nodeMap)[name := list[0]]
    {
      hide IndexedParts, Validated, View, Chain;
      var node := new Node(name);
      nodeMap := nodeMap[name := node];
      ghost var u := [node] + list;
      PrependWorks(node, list);
      NewFile(old(nodeMap), nodeMap, list, c, l, limbo, node, u, c + 1, l + 1);
      node.usage := node.usage + 1;
      PutFirst(node, u);
      assert u[1..] == old(list);
    }

    /** A use of the file at the head: it is there already. */
    method UseHead(node: Node)
      requires Valid() && node == head && node.name in nodeMap && nodeMap[node.name] == node
      modifies node`deleted
      ensures Valid() && Gen() == Validated(old(Gen()), node.name)
    {
      FrontStays(nodeMap, list, c, l, limbo);
      node.deleted := false;
    }

    /** cacheValidate: the file is now the most recently used. */
    method CacheValidate(name: Name)
      requires Valid()
      modifies this`nodeMap, this`head, this`list, this`limbo, this`c, this`l, list, limbo
      ensures Valid() && Gen() == Validated(old(Gen()), name)
      ensures forall n :: n in list || n in limbo ==> n in old(list) || n in old(limbo) || fresh(n)
      ensures name in nodeMap && nodeMap == old(nodeMap)[name := nodeMap[name]]
      ensures if name in old(nodeMap) then nodeMap[name] == old(nodeMap)[name] else fresh(nodeMap[name])
    {
      hide IndexedParts, View, Chain, Validated, Flagged, Apart;
      if name !in nodeMap {
        AddFile(name);
      } else {
        MappedName(nodeMap, list, c, l, limbo, name);
        var node := nodeMap[name];
        if node == head {
          UseHead(node);
        } else {
          MoveToFront(node);
        }
      }
    }

    method Withdraw(node: Node, ghost listed: bool, ghost i: nat, ghost t: seq<Node>, ghost c': nat, ghost l': nat,
                    ghost list': seq<Node>, ghost limbo': seq<Node>)
      requires Chained() && Leave(list, c, l, limbo, node, listed, i, t, c', l', list', limbo')
      modifies this`head, this`list, this`limbo, this`c, this`l, list, limbo
      ensures Chained() && list == list' && c == c' && l == l' && limbo == limbo'
      ensures node.deleted && node !in list && node !in limbo
    {
      hide Chain, Apart, Flagged;
      if node == head {
        LeavesHead(list, c, l, limbo, node, listed, i, t, c', l', list', limbo');
        TakeHead(node);
      } else {
        TakeOut(node, listed, i, t, c', l');
      }
      node.deleted := true;
    }

    /** A node that was purged: on neither chain, and flagged for good. */
    ghost predicate OffList(node: Node)
      reads this, node
    {
      node.deleted && node !in list && node !in limbo
    }

    /** removeNode: the file is on neither chain and not in the map. */
    method RemoveNode(name: Name)
      requires Valid()
      modifies this`nodeMap, this`head, this`list, this`limbo, this`c, this`l, list, limbo
      ensures Valid() && Gen() == Purged(old(Gen()), name) && nodeMap == old(nodeMap) - {name}
      ensures Left(old(list), old(limbo), list, limbo, name)
      ensures name in old(nodeMap) ==> OffList(old(nodeMap)[name])
    {
      if name !in nodeMap {
        Absent(nodeMap, list, c, l, limbo, name);
      } else {
        RemoveMapped(name);
      }
    }

    method RemoveMapped(name: Name)
      requires Valid() && name in nodeMap
      modifies this`nodeMap, this`head, this`list, this`limbo, this`c, this`l, list, limbo
      ensures Valid() && Gen() == Purged(old(Gen()), name) && nodeMap == old(nodeMap) - {name}
      ensures Left(old(list), old(limbo), list, limbo, name)
      ensures name in old(nodeMap) ==> OffList(old(nodeMap)[name])
    {
      hide IndexedParts, LeaveParts, Purged, View, Chain, Left, Apart, Flagged;
      var node := nodeMap[name];
      MappedName(nodeMap, list, c, l, limbo, name);
      ghost var listed, i, t, c', l', list', limbo' := PlanLeave(nodeMap, list, c, l, limbo, node);
      nodeMap := nodeMap - {name};
      Withdraw(node, listed, i, t, c', l', list', limbo');
    }

    /** updateMarker: the last marker comes to the front and is now the current one. */
    method UpdateMarker()
      requires Valid()
      modifies this`head, this`currMarker, this`lastMarker, this`list, this`c, this`l, list
      ensures Valid() && Gen() == Marked(old(Gen())) && limbo == old(limbo)
      ensures Within(list, old(list))
    {
      hide IndexedParts, Marked, View, Without, Chain, Flagged, Within;
      ghost var t := Without(list, l);
      ghost var u := [lastMarker] + t;
      MarkerMoves(nodeMap, list, c, l, limbo, t, u, c + 1);
      SwapMarkers(t, u, c + 1);
    }

    method SwapMarkers(ghost t: seq<Node>, ghost u: seq<Node>, ghost lu: nat)
      requires Chained() && Skips(list, l, t) && Prepends(list[l], t, u) && list[l] !in t && t[0] == head
      requires lu < |u| && u[lu] == list[c] && 0 < lu && Apart(u, limbo)
      modifies this`head, this`currMarker, this`lastMarker, this`list, this`c, this`l, list
      ensures Chained() && list == u && c == 0 && l == lu && limbo == old(limbo)
    {
      hide Chain, Apart;
      var node := lastMarker;
      Unlink(node, list, l, t, limbo);
      PushFront(node, head, t, u);
      head := node;
      lastMarker, currMarker := currMarker, node;
      list, c, l := u, 0, lu;
    }

    /** Cuts the expired nodes b off the list. */
    method CutTail(ghost a: seq<Node>, ghost b: seq<Node>) returns (node: Node)
      requires Chain(list) && Splits(list, a, b) && a != [] && b != [] && lastMarker == a[|a| - 1]
      modifies lastMarker`next, (b[0] as Node)`prev
      ensures Chain(a) && Chain(b) && node == b[0]
    {
      assert lastMarker == list[|a| - 1] && b[0] == list[|a|];
      node := lastMarker.next;
      lastMarker.next := null;
      node.prev := null;
    }

    /** Flags the first nodes of the expired chain b, up to maxEviction of them. */
    method Collect(first: Node, ghost b: seq<Node>) returns (delItems: seq<Node>, node: Node?)
      requires Chain(b) && b != [] && first == b[0]
      modifies b`deleted
      ensures Chain(b) && |delItems| == (if |b| <= maxEviction then |b| else maxEviction)
      ensures delItems == b[..|delItems|] && node == (if |delItems| < |b| then b[|delItems|] else null)
      ensures forall i :: 0 <= i < |b| ==> b[i].deleted == (i < |delItems| || old(b[i].deleted))
    {
      delItems, node := [], first;
      while node != null && |delItems| < maxEviction
        invariant |delItems| <= |b| && |delItems| <= maxEviction && delItems == b[..|delItems|]
        invariant node == if |delItems| < |b| then b[|delItems|] else null
        invariant forall i :: 0 <= i < |b| ==> b[i].deleted == (i < |delItems| || old(b[i].deleted))
        decreases |b| - |delItems|
      {
        ghost var k := |delItems|;
        assert node == b[k];
        delItems := delItems + [node];
        node.deleted := true;
        assert node.next == if k + 1 < |b| then b[k + 1] else null;
        node := node.next;
      }
    }

    /** More files have expired than one pass may evict. */
    ghost predicate Overfull(expired: nat) { 0 < maxEviction < expired }

    /** The expired nodes taken by an overfull pass: mapped, flagged, linked to each other, and the
        last of them still linked to the node that stays behind the last marker. */
    ghost predicate Dangling(items: seq<Node>)
      reads this, lastMarker, items
    {
      && lastMarker.next != null && Trailing(items, lastMarker.next) && Flagged([], items)
      && Overhang(nodeMap, items, lastMarker.next, lastMarker, head)
    }

    /** The part of deleteExpiredNodes that runs under the lock. */
    method DetachExpired() returns (delItems: seq<Node>)
      requires Valid() && limbo == []
      modifies this`list, this`limbo, list
      ensures var g := old(Gen());
        if Overfull(|g.back|) then Dangling(delItems) && Within(delItems, old(list)) && lastMarker.next in old(list)
        else && Valid() && delItems == limbo && Within(list, old(list)) && Within(limbo, old(list))
             && (delItems == [] || lastMarker.next == null) && Gen() == if maxEviction == 0 then g else Detached(g)
    {
      hide IndexedParts, View, Detached, Chain, Trailing, Splits, Within, Apart, Flagged, Overhang;
      LastLink(list, l);
      if lastMarker.next == null {
        delItems := [];
        NoneExpired(list, c, l);
      } else {
        ghost var a, b := list[..l + 1], list[l + 1..];
        Expiring(nodeMap, list, c, l, a, b);
        if Overfull(|b|) { Overhanging(nodeMap, list, c, l, b, b[..maxEviction], maxEviction); }
        delItems := DetachSome(a, b);
      }
    }

    method DetachSome(ghost a: seq<Node>, ghost b: seq<Node>) returns (delItems: seq<Node>)
      requires Chained() && limbo == [] && Splits(list, a, b) && |a| == l + 1 && b != [] && Apart(a, b)
      modifies this`list, this`limbo, list
      ensures |b| <= maxEviction ==> Chained() && list == a && limbo == b && delItems == b && lastMarker.next == null
      ensures maxEviction == 0 ==> Chained() && list == old(list) && limbo == [] && delItems == []
      ensures Overfull(|b|) ==> delItems == b[..maxEviction] && Trailing(delItems, b[maxEviction])
      ensures Overfull(|b|) ==> lastMarker.next == b[maxEviction] && Flagged([], delItems)
    {
      assert a[l] == list[l] && a[0] == list[0] && a[c] == list[c];
      hide Chain, Trailing, Splits, Apart, Flagged;
      delItems := TakeExpired(a, b);
      if |b| <= maxEviction { list, limbo := a, b; }
    }

    method TakeExpired(ghost a: seq<Node>, ghost b: seq<Node>) returns (delItems: seq<Node>)
      requires Chain(list) && Flagged(list, []) && Splits(list, a, b) && a != [] && b != [] && lastMarker == a[|a| - 1]
      modifies list
      ensures |b| <= maxEviction ==> Chain(a) && Chain(b) && delItems == b && Flagged(a, b) && lastMarker.next == null
      ensures maxEviction == 0 ==> Chain(list) && delItems == [] && Flagged(list, [])
      ensures Overfull(|b|) ==> delItems == b[..maxEviction] && Trailing(delItems, b[maxEviction])
      ensures Overfull(|b|) ==> lastMarker.next == b[maxEviction] && Flagged([], delItems)
    {
      var node;
      delItems, node := CutAndCollect(a, b);
      hide Chain,  Splits, Trailing;
      Rejoin(node, a, b, |delItems|);
    }

    method CutAndCollect(ghost a: seq<Node>, ghost b: seq<Node>) returns (delItems: seq<Node>, node: Node?)
      requires Chain(list) && Flagged(list, []) && Splits(list, a, b) && a != [] && b != [] && lastMarker == a[|a| - 1]
      modifies list
      ensures Chain(a) && Chain(b) && Unrepeated(list)
      ensures |delItems| == (if |b| <= maxEviction then |b| else maxEviction)
      ensures delItems == b[..|delItems|] && node == (if |delItems| < |b| then b[|delItems|] else null)
      ensures Flagged(a, delItems) && Flagged(b[|delItems|..], []) && (delItems == [] ==> Flagged(list, []))
    {
      assert Unrepeated(list);
      node := CutTail(a, b);
      delItems, node := Collect(node, b);
    }

    /** Links the last marker to what is left of the expired chain b after its first k nodes. */
    method Rejoin(node: Node?, ghost a: seq<Node>, ghost b: seq<Node>, ghost k: nat)
      requires Chain(a) && Chain(b) && Splits(list, a, b) && Unrepeated(list) && a != [] && b != []
      requires lastMarker == a[|a| - 1]
      requires k <= |b| && node == if k < |b| then b[k] else null
      modifies lastMarker`next, b`prev
      ensures k == |b| ==> Chain(a) && Chain(b) && lastMarker.next == null
      ensures k == 0 ==> Chain(list)
      ensures 0 < k < |b| ==> Trailing(b[..k], b[k]) && lastMarker.next == b[k]
    {
      assert lastMarker == list[|a| - 1] && forall i :: 0 <= i < |b| ==> b[i] != lastMarker;
      lastMarker.next := node;
      if node != null { node.prev := lastMarker; }
      if k == 0 {
        LinksJoin(list, a, b);
      }
    }

    /** deleteExpiredNodes on one detached file: skipped when it was used again in between. */
    method SweepItem(item: Node)
      requires Valid()
      modifies this`nodeMap, this`head, this`list, this`limbo, this`c, this`l, list, limbo
      ensures Valid() && Gen() == if old(item.deleted) then Purged(old(Gen()), item.name) else old(Gen())
      ensures Left(old(list), old(limbo), list, limbo, item.name)
      ensures nodeMap == if old(item.deleted) then old(nodeMap) - {item.name} else old(nodeMap)
    {
      if item.deleted { RemoveNode(item.name); }
    }

    /** The detached files from the k-th on are still to be swept, and nothing else is in limbo. */
    ghost predicate Sweeping(g: Gens, items: seq<Node>, k: nat)
      reads this, list, limbo
    {
      Valid() && k <= |items| && Within(items[k..], limbo) && Gen() == g.(limbo := Names(items)[k..])
    }

    method SweepNext(ghost g: Gens, items: seq<Node>, k: nat)
      requires Sweeping(g, items, k) && k < |items| && Unrepeated(Names(items)) && !Listed(g, items[k].name)
      modifies this`nodeMap, this`head, this`list, this`limbo, this`c, this`l, list, limbo
      ensures Sweeping(g, items, k + 1) && Within(list, old(list)) && Within(limbo, old(limbo))
    {
      hide IndexedParts, View, Purged, Chain, Apart, Unrepeated, Flagged, Left;
      PurgeNext(g, items, k, limbo);
      InLimbo(list, limbo, items[k]);
      SweepItem(items[k]);
      StillDetached(items, k, old(list), old(limbo), list, limbo);
    }

    /** The rest of deleteExpiredNodes, when nothing interrupts it: the detached files leave the map. */
    method Sweep(delItems: seq<Node>)
      requires Valid() && delItems == limbo
      modifies this`nodeMap, this`head, this`list, this`limbo, this`c, this`l, list, limbo
      ensures Valid() && limbo == [] && Gen() == old(Gen()).(limbo := [])
    {
      hide IndexedParts, View, Chain, Apart, Unrepeated, Flagged;
      ghost var g := Gen();
      LimboNames(nodeMap, list, c, l, limbo);
      LimboIs(list, c, l, limbo);
      assert delItems[0..] == delItems && g.limbo[0..] == g.limbo;
      var k := 0;
      while k < |delItems|
        invariant Sweeping(g, delItems, k)
        invariant Within(list, old(list)) && Within(limbo, old(limbo))
      {
        SweepNext(g, delItems, k);
        k := k + 1;
      }
      LimboIs(list, c, l, limbo);
    }

    /** The same for an overfull pass: the node that stays loses its link back to the last marker. */
    method SweepDangling(delItems: seq<Node>)
      requires Dangling(delItems)
      modifies this`nodeMap, delItems, lastMarker.next
      ensures lastMarker.next != null && lastMarker.next.prev == null
    {
      ghost var rest := lastMarker.next;
      var k := 0;
      while k < |delItems|
        invariant k <= |delItems| && lastMarker.next == rest
        invariant forall i, j :: k <= i && j == i + 1 < |delItems| ==>
          delItems[i].next == delItems[j] && delItems[j].prev == delItems[i]
        invariant k < |delItems| ==> delItems[k].prev == null && delItems[|delItems| - 1].next == rest
        invariant forall i :: k <= i < |delItems| ==>
          delItems[i].deleted && delItems[i].name in nodeMap && nodeMap[delItems[i].name] == delItems[i]
        invariant k == |delItems| ==> rest.prev == null
      {
        var item := delItems[k];
        assert item.next == if k + 1 < |delItems| then delItems[k + 1] else rest;
        if item.deleted {
          var node := nodeMap[item.name];
          nodeMap := nodeMap - {item.name};
          CutLinks(node);
        }
        k := k + 1;
      }
    }

    /** One whole pass that nothing interrupts. It evicts what is behind the last marker, and it leaves
        the list linked exactly when it may evict all of that, or nothing. */
    method DeleteExpiredNodes()
      requires Valid() && limbo == []
      modifies this`nodeMap, this`head, this`list, this`limbo, this`c, this`l, list
      ensures var g := old(Gen());
        if Overfull(|g.back|) then lastMarker.next != null && lastMarker.next.prev != lastMarker
        else Valid() && limbo == [] && Gen() == if maxEviction == 0 then g else g.(back := [])
    {
      var delItems := DetachExpired();
      hide IndexedParts, View, Chain, Trailing, Overhang, Flagged;
      if lastMarker.next != null && |delItems| > 0 {
        SweepDangling(delItems);
      } else {
        Sweep(delItems);
      }
    }

    /** A detached node is still mapped, wherever it is now, or it was purged. */
    ghost predicate Tracks(node: Node, f: Fate)
      reads this, node
    {
      if f == Gone then OffList(node) else node.name in nodeMap && nodeMap[node.name] == node
    }

    /** The policy is where the run h has brought it; `items` are the nodes its last pass detached. */
    ghost predicate Follows(h: History, items: seq<Node>)
      reads this, list, limbo, items
    {
      && Valid() && Gen() == Run(Log(h)) && Names(items) == h.items && h.swept <= |items|
      && forall j :: h.swept <= j < |items| ==> Tracks(items[j], FateOf(items[j].name, h.since))
    }

    /** One operation of a run other than a pass. */
    method Apply(op: Op, ghost h: History, ghost items: seq<Node>)
      requires Follows(h, items) && op != Detach
      modifies this, list, limbo
      ensures Follows(h.(since := h.since + [op]), items)
      ensures forall n :: n in list || n in limbo ==> n in old(list) || n in old(limbo) || fresh(n)
    {
      hide IndexedParts, View, Chain, Validated, Purged, Marked, Flagged, Apart, Run, FateOf, Chained;
      LogMore(h, op);
      match op {
        case Validate(n) => CacheValidate(n);
        case Purge(n) => RemoveNode(n);
        case Mark => UpdateMarker();
      }
    }

    /** A pass up to where it lets go of the lock. */
    method Pass(ghost h: History, ghost was: seq<Node>) returns (items: seq<Node>)
      requires Follows(h, was) && Tracked(h) && MayDetach(h, maxEviction)
      modifies this, list, limbo
      ensures Follows(After(h, Do(Detach)), items)
      ensures forall n :: n in list || n in limbo ==> n in old(list) || n in old(limbo) || fresh(n)
      ensures forall n :: n in items ==> n in old(list)
    {
      hide IndexedParts, View, Chain, Trailing, Overhang, Flagged, Apart, Run, Chained;
      assert forall n :: FateOf(n, []) == Waiting;
      ghost var g := Gen();
      NoneOrFirst(g.limbo);
      assert g.back == [] ==> Detached(g) == g;
      LimboIs(list, c, l, limbo);
      RunStep(Log(h), Detach);
      assert Log(After(h, Do(Detach))) == Log(h) + [Detach];
      items := DetachExpired();
      LimboMapped(nodeMap, list, c, l, limbo);
      LimboIs(list, c, l, limbo);
    }

    /** The flag of the next node to be swept is the one the run says. */
    lemma FlagTracks(h: History, items: seq<Node>)
      requires Follows(h, items) && Tracked(h) && h.swept < |items|
      ensures items[h.swept].deleted == FlagSet(items[h.swept].name, h.since)
    {
      hide IndexedParts, View, Chain, Apart, Run, FateOf, Listed;
      var n := items[h.swept].name;
      assert n == h.items[h.swept] && n in h.items[h.swept..];
      LimboIs(list, c, l, limbo);
      LimboMapped(nodeMap, list, c, l, limbo);
      ListedIsMapped(nodeMap, list, c, l, limbo, n);
    }

    /** deleteExpiredNodes on its next file. */
    method SweepOne(items: seq<Node>, k: nat, ghost h: History)
      requires Follows(h, items) && Tracked(h) && k == h.swept < |items|
      modifies this, list, limbo
      ensures Follows(After(h, Look), items)
      ensures forall n :: n in list || n in limbo ==> n in old(list) || n in old(limbo) || fresh(n)
    {
      hide IndexedParts, View, Chain, Flagged, Apart, Run, FateOf, Chained;
      ghost var n := items[k].name;
      assert items[k].deleted == FlagSet(n, h.since) by { FlagTracks(h, items); }
      if items[k].deleted {
        LogMore(h, Purge(n));
        assert Log(After(h, Look)) == Log(h.(since := h.since + [Purge(n)]));
      } else {
        assert Log(After(h, Look)) == Log(h);
      }
      assert forall j :: k < j < |items| ==> items[j].name == h.items[j] != n;
      SweepItem(items[k]);
    }

    /** isCached: exactly the files of the list. */
    method IsCached(name: Name) returns (cached: bool)
      requires Valid()
      ensures cached <==> Listed(Gen(), name)
    {
      ListedIsMapped(nodeMap, list, c, l, limbo, name);
      assert Named(name);
      cached := name in nodeMap && !nodeMap[name].deleted;
    }
  }

  /** How a mapped node leaves its chain: t is left of it, and list' and limbo' are the two then. */
  ghost predicate Leave(list: seq<Node>, c: nat, l: nat, limbo: seq<Node>, node: Node, listed: bool, i: nat,
                        t: seq<Node>, c': nat, l': nat, list': seq<Node>, limbo': seq<Node>)
  {
    && c' < l' < |list'|
    && var planned := LeaveParts(list, c, l, limbo, node, listed, i, t, c', l', list', limbo'); planned
  }

  ghost predicate LeaveParts(list: seq<Node>, c: nat, l: nat, limbo: seq<Node>, node: Node, listed: bool, i: nat,
                             t: seq<Node>, c': nat, l': nat, list': seq<Node>, limbo': seq<Node>)
  {
    && c < l < |list| && c' < l' < |list'|
    && (if listed
        then && Skips(list, i, t) && list[i] == node && i != c && i != l
             && c' == (if i < c then c - 1 else c) && l' == (if i < l then l - 1 else l)
             && t[c'] == list[c] && t[l'] == list[l] && Apart(t, limbo)
             && node !in t && node !in limbo && list' == t && limbo' == limbo
        else && Skips(limbo, i, t) && limbo[i] == node && c' == c && l' == l
             && Apart(t, list) && node !in list && node !in t && list' == list && limbo' == t)
  }

  /** No node is new on either chain, and limbo keeps the nodes of other names. */
  ghost predicate Left(list: seq<Node>, limbo: seq<Node>, list': seq<Node>, limbo': seq<Node>, name: Name)
  {
    && Within(list', list) && Within(limbo', limbo)
    && forall i :: 0 <= i < |limbo| && limbo[i].name != name ==> limbo[i] in limbo'
  }

  lemma PlanLeave(m: map<Name, Node>, list: seq<Node>, c: nat, l: nat, limbo: seq<Node>, node: Node)
    returns (listed: bool, i: nat, t: seq<Node>, c': nat, l': nat, list': seq<Node>, limbo': seq<Node>)
    requires Indexed(m, list, c, l, limbo, {}) && node.name in m && m[node.name] == node
    ensures Leave(list, c, l, limbo, node, listed, i, t, c', l', list', limbo')
    ensures Indexed(m - {node.name}, list', c', l', limbo', {})
    ensures View(list', c', l', limbo') == Purged(View(list, c, l, limbo), node.name)
    ensures Left(list, limbo, list', limbo', node.name)
  {
    hide LeaveParts, View, Purged, Left;
    assert Named(node.name);
    listed := node in list;
    if listed {
      i :| i < |list| && list[i] == node;
      t, c', l' := Without(list, i), if i < c then c - 1 else c, if i < l then l - 1 else l;
      list', limbo' := t, limbo;
      LeaveList(m, list, c, l, limbo, node, i, c', l', t);
    } else {
      i :| i < |limbo| && limbo[i] == node;
      t, c', l' := Without(limbo, i), c, l;
      list', limbo' := list, t;
      LeaveLimbo(m, list, c, l, limbo, node, i, t);
    }
  }

  lemma LeaveList(m: map<Name, Node>, list: seq<Node>, c: nat, l: nat, limbo: seq<Node>, node: Node, i: nat, c': nat,
                  l': nat, t: seq<Node>)
    requires Indexed(m, list, c, l, limbo, {}) && node.name in m && m[node.name] == node && i < |list|
    requires list[i] == node
    requires c' == (if i < c then c - 1 else c) && l' == (if i < l then l - 1 else l) && t == Without(list, i)
    ensures Leave(list, c, l, limbo, node, true, i, t, c', l', t, limbo)
    ensures Indexed(m - {node.name}, t, c', l', limbo, {})
    ensures View(t, c', l', limbo) == Purged(View(list, c, l, limbo), node.name)
    ensures Left(list, limbo, t, limbo, node.name)
  {
    hide View, Purged, OnlyAt;
    WithoutSkips(list, i);
    hide Without;
    IndexedOnlyAt(m, list, c, l, limbo, i);
    ViewWithout(list, c, l, limbo, i, c', l');
    OutOfList(m, list, c, l, limbo, i, t);
    SkipMember(list, i, t, node);
    Unmapped(m, t, c', l', limbo, node);
  }

  lemma LeaveLimbo(m: map<Name, Node>, list: seq<Node>, c: nat, l: nat, limbo: seq<Node>, node: Node, i: nat,
                   t: seq<Node>)
    requires Indexed(m, list, c, l, limbo, {}) && node.name in m && m[node.name] == node && i < |limbo|
    requires limbo[i] == node
    requires t == Without(limbo, i)
    ensures Leave(list, c, l, limbo, node, false, i, t, c, l, list, t)
    ensures Indexed(m - {node.name}, list, c, l, t, {})
    ensures View(list, c, l, t) == Purged(View(list, c, l, limbo), node.name)
    ensures Left(list, limbo, list, t, node.name)
  {
    hide View, Purged;
    WithoutSkips(limbo, i);
    hide Without;
    LimboOnlyAt(m, list, c, l, limbo, i);
    OutOfLimbo(m, list, c, l, limbo, i, t);
    forall n | n in limbo ensures n in t <==> n != node { SkipMember(limbo, i, t, n); }
    assert node !in t by { SkipMember(limbo, i, t, node); }
    Unmapped(m, list, c, l, t, node);
  }

  lemma Unmapped(m: map<Name, Node>, list: seq<Node>, c: nat, l: nat, limbo: seq<Node>, node: Node)
    requires Indexed(m, list, c, l, limbo, {node.name}) && node.name in m && m[node.name] == node
    requires node !in list && node !in limbo
    ensures Indexed(m - {node.name}, list, c, l, limbo, {})
  {
  }

  lemma ListedIsMapped(m: map<Name, Node>, list: seq<Node>, c: nat, l: nat, limbo: seq<Node>, n: Name)
    requires Indexed(m, list, c, l, limbo, {})
    ensures Listed(View(list, c, l, limbo), n) <==> n in m && m[n] in list
  {
    var g := View(list, c, l, limbo);
    if n in m && m[n] in list {
      var i :| 0 <= i < |list| && list[i] == m[n];
      if i < c {
        assert g.front[i] == n;
      } else if i < l {
        assert g.middle[i - c - 1] == n;
      } else {
        assert g.back[i - l - 1] == n;
      }
    }
  }

  ghost predicate Within(s: seq<Node>, t: seq<Node>) { forall i :: 0 <= i < |s| ==> s[i] in t }

  /** list is a followed by b. */
  ghost predicate Splits(list: seq<Node>, a: seq<Node>, b: seq<Node>)
  {
    && |list| == |a| + |b|
    && (forall i {:trigger a[i]} :: 0 <= i < |a| ==> a[i] == list[i])
    && (forall i {:trigger b[i]} :: 0 <= i < |b| ==> b[i] == list[|a| + i])
  }

  /** Distinct nodes linked in this order, the first to nothing before it and the last to `rest`. */
  ghost predicate Trailing(items: seq<Node>, rest: Node)
    reads items
  {
    && (forall i, j :: 0 <= i < j < |items| ==> items[i] != items[j])
    && (forall i, j :: 0 <= i && j == i + 1 < |items| ==> items[i].next == items[j] && items[j].prev == items[i])
    && (items != [] ==> items[0].prev == null && items[|items| - 1].next == rest)
  }

  lemma MappedName(m: map<Name, Node>, list: seq<Node>, c: nat, l: nat, limbo: seq<Node>, n: Name)
    requires Indexed(m, list, c, l, limbo, {}) && n in m
    ensures m[n].name == n
  {
  }

  lemma LeavesHead(list: seq<Node>, c: nat, l: nat, limbo: seq<Node>, node: Node, listed: bool, i: nat,
                   t: seq<Node>, c': nat, l': nat, list': seq<Node>, limbo': seq<Node>)
    requires Leave(list, c, l, limbo, node, listed, i, t, c', l', list', limbo') && node == list[0]
    ensures c > 0 && list' == list[1..] && c' == c - 1 && l' == l - 1 && limbo' == limbo
  {
    assert node in list;
    assert t[0] == list[if i == 0 then 1 else 0];
  }

  lemma LastLink(list: seq<Node>, l: nat)
    requires Chain(list) && l < |list|
    ensures list[l].next == null <==> l == |list| - 1
  {
    if l < |list| - 1 { assert list[l].next == list[l + 1]; }
  }

  lemma NoneExpired(list: seq<Node>, c: nat, l: nat)
    requires c < l == |list| - 1
    ensures var g := View(list, c, l, []); g.back == [] && Detached(g) == g
    ensures Within(list, list) && Within([], list)
  {
  }

  lemma LinksJoin(list: seq<Node>, a: seq<Node>, b: seq<Node>)
    requires Splits(list, a, b) && Unrepeated(list) && a != [] && b != []
    requires forall i, j :: 0 <= i && j == i + 1 < |a| ==> a[i].next == a[j] && a[j].prev == a[i]
    requires forall i, j :: 0 <= i && j == i + 1 < |b| ==> b[i].next == b[j] && b[j].prev == b[i]
    requires a[0].prev == null && b[|b| - 1].next == null && a[|a| - 1].next == b[0] && b[0].prev == a[|a| - 1]
    ensures Chain(list)
  {
    forall i, j | 0 <= i && j == i + 1 < |list| ensures list[i].next == list[j] && list[j].prev == list[i] {
      if j < |a| {
        assert a[i] == list[i] && a[j] == list[j];
      } else if i >= |a| {
        assert b[i - |a|] == list[i] && b[j - |a|] == list[j];
      } else {
        assert a[i] == list[i] && b[0] == list[j];
      }
    }
    assert a[0] == list[0] && b[|b| - 1] == list[|list| - 1];
  }

  /** What the pass may do to the list with the files a up to the last marker and b behind it. */
  lemma Expiring(m: map<Name, Node>, list: seq<Node>, c: nat, l: nat, a: seq<Node>, b: seq<Node>)
    requires Indexed(m, list, c, l, [], {}) && a == list[..l + 1] && b == list[l + 1..]
    ensures Splits(list, a, b) && Within(a, list) && Within(b, list) && Within(list, list) && Within([], list)
    ensures Apart(a, b)
    ensures Indexed(m, a, c, l, b, {}) && View(a, c, l, b) == Detached(View(list, c, l, []))
    ensures |b| == |View(list, c, l, []).back|
    ensures forall i :: 0 <= i < |b| ==> b[i].name in m && m[b[i].name] == b[i]
  {
    DetachedIndexed(m, list, c, l, a, b);
  }

  /** What makes expired nodes dangle, apart from their links. */
  ghost predicate Overhang(m: map<Name, Node>, items: seq<Node>, rest: Node, marker: Node, head: Node)
  {
    && items != [] && rest !in items && marker !in items && head !in items && rest != marker
    && forall i :: 0 <= i < |items| ==> items[i].name in m && m[items[i].name] == items[i]
  }

  lemma Overhanging(m: map<Name, Node>, list: seq<Node>, c: nat, l: nat, b: seq<Node>, items: seq<Node>, k: nat)
    requires Indexed(m, list, c, l, [], {}) && b == list[l + 1..] && 0 < k < |b| && items == b[..k]
    ensures Overhang(m, items, b[k], list[l], list[0]) && Within(items, list) && b[k] in list
  {
    assert forall i :: 0 <= i < k ==> items[i] == list[l + 1 + i];
    assert b[k] == list[l + 1 + k];
  }

  lemma LimboNames(m: map<Name, Node>, list: seq<Node>, c: nat, l: nat, limbo: seq<Node>)
    requires Indexed(m, list, c, l, limbo, {})
    ensures var g := View(list, c, l, limbo);
      Unrepeated(g.limbo) && forall k :: 0 <= k < |g.limbo| ==> !Listed(g, g.limbo[k])
  {
    var g := View(list, c, l, limbo);
    forall a, b | 0 <= a < b < |g.limbo| ensures g.limbo[a] != g.limbo[b] {
      assert g.limbo[a] == limbo[a].name && g.limbo[b] == limbo[b].name;
    }
    forall k | 0 <= k < |g.limbo| ensures !Listed(g, g.limbo[k]) {
      ListedIsMapped(m, list, c, l, limbo, limbo[k].name);
    }
  }

  lemma LimboIs(list: seq<Node>, c: nat, l: nat, limbo: seq<Node>)
    requires c < l < |list|
    ensures View(list, c, l, limbo).limbo == Names(limbo)
  {
  }

  /** Sweeping the next detached file takes it, and only it, out of the generations. */
  lemma PurgeNext(g: Gens, items: seq<Node>, k: nat, limbo: seq<Node>)
    requires k < |items| && Unrepeated(Names(items)) && !Listed(g, items[k].name) && Within(items[k..], limbo)
    ensures Purged(g.(limbo := Names(items)[k..]), items[k].name) == g.(limbo := Names(items)[k + 1..])
    ensures items[k] in limbo
  {
    var ns := Names(items);
    MinusAt(ns[k..], 0);
    assert ns[k..][1..] == ns[k + 1..];
    assert items[k..][0] == items[k];
  }

  lemma InLimbo(list: seq<Node>, limbo: seq<Node>, item: Node)
    requires Flagged(list, limbo) && item in limbo
    ensures item.deleted
  {
  }

  lemma StillDetached(items: seq<Node>, k: nat, list: seq<Node>, limbo: seq<Node>, list': seq<Node>, limbo': seq<Node>)
    requires k < |items| && Unrepeated(Names(items)) && Within(items[k..], limbo)
    requires Left(list, limbo, list', limbo', items[k].name)
    ensures Within(items[k + 1..], limbo') && Within(list', list) && Within(limbo', limbo)
  {
    var ns := Names(items);
    forall j | k < j < |items| ensures items[j] in limbo' {
      assert ns[k] != ns[j] && items[k..][j - k] == items[j];
    }
  }

  /** On a well-linked list the successor of every node links back to it. */
  lemma LinkedBack(list: seq<Node>, l: nat)
    requires Chain(list) && l < |list|
    ensures list[l].next != null ==> list[l].next.prev == list[l]
  {
    if l + 1 < |list| { assert list[l].next == list[l + 1]; }
  }

  lemma DetachedIndexed(m: map<Name, Node>, list: seq<Node>, c: nat, l: nat, a: seq<Node>, b: seq<Node>)
    requires Indexed(m, list, c, l, [], {}) && a == list[..l + 1] && b == list[l + 1..]
    ensures Indexed(m, a, c, l, b, {}) && View(a, c, l, b) == Detached(View(list, c, l, []))
  {
    assert a[0..c] == list[0..c] && a[c + 1..l] == list[c + 1..l];
    assert list == a + b;
  }

  lemma MarkerMoves(m: map<Name, Node>, list: seq<Node>, c: nat, l: nat, limbo: seq<Node>, t: seq<Node>, u: seq<Node>,
                    lu: nat)
    requires Indexed(m, list, c, l, limbo, {}) && t == Without(list, l) && u == [list[l]] + t && lu == c + 1
    ensures Skips(list, l, t) && Prepends(list[l], t, u) && t[0] == list[0] && u[lu] == list[c] && list[l] !in t
    ensures Apart(u, limbo) && Within(u, list)
    ensures Indexed(m, u, 0, lu, limbo, {})
    ensures View(u, 0, lu, limbo) == Marked(View(list, c, l, limbo))
  {
    WithoutSkips(list, l);
    PrependWorks(list[l], t);
    MarkerView(list, c, l, limbo, t, u, lu);
    hide Without, View, Marked;
    MarkerIndexed(m, list, c, l, limbo, t, u, lu);
    SkipMember(list, l, t, list[l]);
  }

  lemma MarkerView(list: seq<Node>, c: nat, l: nat, limbo: seq<Node>, t: seq<Node>, u: seq<Node>, lu: nat)
    requires c < l < |list| && t == Without(list, l) && u == [list[l]] + t && lu == c + 1
    ensures View(u, 0, lu, limbo) == Marked(View(list, c, l, limbo))
  {
    assert u[1..lu] == list[0..c];
    assert u[lu + 1..|u|] == list[c + 1..l] + list[l + 1..|list|];
  }

  lemma MarkerIndexed(m: map<Name, Node>, list: seq<Node>, c: nat, l: nat, limbo: seq<Node>, t: seq<Node>,
                      u: seq<Node>, lu: nat)
    requires Indexed(m, list, c, l, limbo, {}) && Skips(list, l, t) && Prepends(list[l], t, u) && lu == c + 1
    ensures Indexed(m, u, 0, lu, limbo, {}) && Within(u, list) && Apart(u, limbo)
  {
    forall n | Named(n) && n in m ensures m[n] in u || m[n] in limbo {
      SkipMember(list, l, t, m[n]);
      PrependMember(list[l], t, u, m[n]);
    }
  }

  lemma Absent(m: map<Name, Node>, list: seq<Node>, c: nat, l: nat, limbo: seq<Node>, n: Name)
    requires Indexed(m, list, c, l, limbo, {}) && n !in m
    ensures Purged(View(list, c, l, limbo), n) == View(list, c, l, limbo)
  {
    forall i | 0 <= i < |list| && i != c && i != l ensures list[i].name != n { }
  }

  lemma NewFile(m: map<Name, Node>, m': map<Name, Node>, list: seq<Node>, c: nat, l: nat, limbo: seq<Node>,
                node: Node, u: seq<Node>, cu: nat, lu: nat)
    requires Indexed(m, list, c, l, limbo, {}) && node.name !in m && m' == m[node.name := node]
    requires node !in list && node !in limbo && u == [node] + list && cu == c + 1 && lu == l + 1
    ensures Indexed(m', u, cu, lu, limbo, {})
    ensures View(u, cu, lu, limbo) == Validated(View(list, c, l, limbo), node.name)
  {
    Absent(m, list, c, l, limbo, node.name);
    ViewPrepend(list, c, l, limbo, node, cu, lu);
    PrependWorks(node, list);
    assert Indexed(m', list, c, l, limbo, {node.name});
    IntoList(m', list, c, l, limbo, node, u);
  }

  /** How a mapped node leaves its chain (t is left of it), and the list u and limbo' once it is at
      the front, with the markers at cu and lu. */
  ghost predicate Move(list: seq<Node>, c: nat, l: nat, limbo: seq<Node>, node: Node,
                       listed: bool, i: nat, t: seq<Node>, u: seq<Node>, cu: nat, lu: nat, limbo': seq<Node>)
  {
    0 < cu < lu < |u| && var planned := MoveParts(list, c, l, limbo, node, listed, i, t, u, cu, lu, limbo'); planned
  }

  ghost predicate MoveParts(list: seq<Node>, c: nat, l: nat, limbo: seq<Node>, node: Node,
                            listed: bool, i: nat, t: seq<Node>, u: seq<Node>, cu: nat, lu: nat, limbo': seq<Node>)
  {
    && c < l < |list| && 0 < cu < lu
    && (if listed
        then && Skips(list, i, t) && list[i] == node && i != c && i != l
             && cu == (if i < c then c else c + 1) && lu == (if i < l then l else l + 1)
             && t[cu - 1] == list[c] && t[lu - 1] == list[l] && Apart(t, limbo) && Prepends(node, t, u)
             && node !in t && node !in limbo && limbo' == limbo
        else && Skips(limbo, i, t) && limbo[i] == node && cu == c + 1 && lu == l + 1
             && Apart(t, list) && Prepends(node, list, u) && node !in list && node !in t && limbo' == t)
  }

  lemma PlanMove(m: map<Name, Node>, list: seq<Node>, c: nat, l: nat, limbo: seq<Node>, node: Node)
    returns (listed: bool, i: nat, t: seq<Node>, u: seq<Node>, cu: nat, lu: nat, limbo': seq<Node>)
    requires Indexed(m, list, c, l, limbo, {}) && node.name in m && m[node.name] == node
    ensures Move(list, c, l, limbo, node, listed, i, t, u, cu, lu, limbo')
    ensures Indexed(m, u, cu, lu, limbo', {})
  {
    assert Named(node.name);
    listed := node in list;
    if listed {
      i :| i < |list| && list[i] == node;
      t, cu, lu := Without(list, i), if i < c then c else c + 1, if i < l then l else l + 1;
      u, limbo' := [node] + t, limbo;
      WithoutSkips(list, i);
      PrependWorks(node, t);
      ListedToFront(m, list, c, l, limbo, i, t, cu - 1, lu - 1, u);
    } else {
      i :| i < |limbo| && limbo[i] == node;
      t, cu, lu := Without(limbo, i), c + 1, l + 1;
      u, limbo' := [node] + list, t;
      WithoutSkips(limbo, i);
      PrependWorks(node, list);
      LimboToFront(m, list, c, l, limbo, i, t, u);
    }
  }

  /** No node is new on either chain. */
  ghost predicate Regrouped(list: seq<Node>, limbo: seq<Node>, list': seq<Node>, limbo': seq<Node>)
  {
    && (forall i :: 0 <= i < |list'| ==> list'[i] in list || list'[i] in limbo)
    && (forall i :: 0 <= i < |limbo'| ==> limbo'[i] in list || limbo'[i] in limbo)
  }

  lemma MoveRegroups(list: seq<Node>, c: nat, l: nat, limbo: seq<Node>, node: Node,
                     listed: bool, i: nat, t: seq<Node>, u: seq<Node>, cu: nat, lu: nat, limbo': seq<Node>)
    requires Move(list, c, l, limbo, node, listed, i, t, u, cu, lu, limbo')
    ensures Regrouped(list, limbo, u, limbo')
  {
    if listed {
      forall n | n in u ensures n in list { PrependMember(node, t, u, n); }
    } else {
      forall n | n in u ensures n in list || n in limbo { PrependMember(node, list, u, n); }
    }
  }

  /** Every run of the policy, from its start and with sweeps at any time after their pass: the list stays
      well linked, holds both markers and exactly the mapped files in order of use, and its generations are
      those of the run. */
  method Replay(events: seq<Event>, maxEviction: nat) returns (p: LruPolicy)
    requires Feasible(events, maxEviction)
    ensures p.Valid() && p.Gen() == Run(Log(Go(events))) && ByRecency(InOrder(p.Gen()), Log(Go(events)))
  {
    hide IndexedParts, View, Chain, Run, ByRecency, Feasible, Flagged, Apart, FateOf;
    p := new LruPolicy(maxEviction);
    var items: seq<Node>, k := [], 0;
    GoStarts(events);
    for i := 0 to |events|
      invariant fresh(p) && p.maxEviction == maxEviction
      invariant forall n :: n in p.list || n in p.limbo || n in items ==> fresh(n)
      invariant p.Follows(Go(events[..i]), items) && k == Go(events[..i]).swept
    {
      ghost var h := Go(events[..i]);
      GoesOn(events, i, maxEviction);
      assert fresh(p.list) && fresh(p.limbo) by {
        assert (forall k :: 0 <= k < |p.list| ==> p.list[k] in p.list) && forall k :: 0 <= k < |p.limbo| ==>
          p.limbo[k] in p.limbo;
      }
      if events[i] == Do(Detach) {
        items := p.Pass(h, items);
        k := 0;
      } else if events[i].Do? {
        p.Apply(events[i].op, h, items);
      } else if k < |items| {
        p.SweepOne(items, k, h);
        k := k + 1;
      }
    }
    assert events[..|events|] == events;
    RecencyOrder(Log(Go(events)));
  }

  lemma GoStarts(events: seq<Event>)
    ensures Go(events[..0]) == History([], [], [], 0) && Run(Log(Go(events[..0]))) == Gens([], [], [], [])
  {
  }

  lemma GoesOn(events: seq<Event>, i: nat, maxEviction: nat)
    requires Feasible(events, maxEviction) && i < |events|
    ensures Go(events[..i + 1]) == After(Go(events[..i]), events[i])
    ensures Tracked(Go(events[..i])) && (events[i] == Do(Detach) ==> MayDetach(Go(events[..i]), maxEviction))
  {
    assert events[..i + 1] == events[..i] + [events[i]];
    GoMore(events[..i], events[i], maxEviction);
    assert forall j :: 0 <= j < i ==> events[..i][..j] == events[..j];
    RunTracked(events[..i], maxEviction);
  }

  lemma LimboMapped(m: map<Name, Node>, list: seq<Node>, c: nat, l: nat, limbo: seq<Node>)
    requires Indexed(m, list, c, l, limbo, {})
    ensures forall j :: 0 <= j < |limbo| ==> limbo[j].name in m && m[limbo[j].name] == limbo[j]
  {
  }

  lemma MoveView(m: map<Name, Node>, list: seq<Node>, c: nat, l: nat, limbo: seq<Node>, node: Node,
                 listed: bool, i: nat, t: seq<Node>, u: seq<Node>, cu: nat, lu: nat, limbo': seq<Node>)
    requires Indexed(m, list, c, l, limbo, {}) && Move(list, c, l, limbo, node, listed, i, t, u, cu, lu, limbo')
    ensures View(u, cu, lu, limbo') == Validated(View(list, c, l, limbo), node.name)
  {
    if listed {
      assert t == Without(list, i) && u == [node] + t;
      ListedToFrontView(m, list, c, l, limbo, i, cu, lu);
    } else {
      assert t == Without(limbo, i) && u == [node] + list;
      LimboToFrontView(m, list, c, l, limbo, i, cu, lu);
    }
  }

  lemma LimboOnlyAt(m: map<Name, Node>, list: seq<Node>, c: nat, l: nat, limbo: seq<Node>, i: nat)
    requires Indexed(m, list, c, l, limbo, {}) && i < |limbo|
    ensures View(list, c, l, Without(limbo, i)) == Purged(View(list, c, l, limbo), limbo[i].name)
  {
    var node, ns := limbo[i], Names(limbo);
    PartLacks(m, list, c, l, limbo, 0, c, node);
    PartLacks(m, list, c, l, limbo, c + 1, l, node);
    PartLacks(m, list, c, l, limbo, l + 1, |list|, node);
    assert Unrepeated(ns) by {
      forall a, b | 0 <= a < b < |ns| ensures ns[a] != ns[b] {
        assert ns[a] == limbo[a].name && ns[b] == limbo[b].name;
      }
    }
    NamesWithout(limbo, i);
  }
}
