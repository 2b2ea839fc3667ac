/** Doubly linked lists as the LFU policy keeps them: the next and prev links of all nodes of a
    kind, and the first and last node of each list. */
module Links {
  import opened Sequences

  type Ref = nat

  datatype Ptr = Nil | At(r: Ref)

  datatype Links = Links(next: map<Ref, Ptr>, prev: map<Ref, Ptr>)

  datatype Ends = Ends(first: Ptr, last: Ptr)

  /** The nodes s, in this order, linked both ways and to nothing else. */
  ghost predicate Linked(l: Links, e: Ends, s: seq<Ref>)
  {
    && Unrepeated(s)
    && (forall i :: 0 <= i < |s| ==> s[i] in l.next && s[i] in l.prev)
    && (forall i, j :: 0 <= i && j == i + 1 < |s| ==> l.next[s[i]] == At(s[j]) && l.prev[s[j]] == At(s[i]))
    && (if s == [] then e == Ends(Nil, Nil)
        else e == Ends(At(s[0]), At(s[|s| - 1])) && l.prev[s[0]] == Nil && l.next[s[|s| - 1]] == Nil)
  }

  /** A node on no list. */
  ghost predicate Loose(l: Links, r: Ref) { r in l.next && r in l.prev && l.next[r] == Nil && l.prev[r] == Nil }

  /** Only the links of the nodes in `touched` differ. */
  ghost predicate Elsewhere(l: Links, l': Links, touched: set<Ref>)
  {
    && l'.next.Keys == l.next.Keys && l'.prev.Keys == l.prev.Keys
    && (forall r :: r in l.next && r !in touched ==> l'.next[r] == l.next[r])
    && (forall r :: r in l.prev && r !in touched ==> l'.prev[r] == l.prev[r])
  }

  lemma LinkedElsewhere(l: Links, l': Links, touched: set<Ref>, e: Ends, s: seq<Ref>)
    requires Linked(l, e, s) && Elsewhere(l, l', touched) && forall r :: r in s ==> r !in touched
    ensures Linked(l', e, s)
  {
  }

  function Nodes(s: seq<Ref>): set<Ref> { set r | r in s }

  /** t is s with r put in at position i. */
  ghost predicate Inserts(s: seq<Ref>, i: nat, r: Ref, t: seq<Ref>)
  {
    && i <= |s| == |t| - 1
    && forall k {:trigger t[k]} :: 0 <= k < |t| ==> t[k] == if k < i then s[k] else if k == i then r else s[k - 1]
  }

  class LinkStore {
    var next: map<Ref, Ptr>
    var prev: map<Ref, Ptr>

    constructor ()
      ensures next == map[] && prev == map[]
    {
      next, prev := map[], map[];
    }

    ghost function Ptrs(): Links
      reads this
    {
      Links(next, prev)
    }

    /** Takes node r, the i-th of the list s, out of it. */
    method Remove(e: Ends, r: Ref, ghost s: seq<Ref>, ghost i: nat, ghost t: seq<Ref>) returns (e': Ends)
      requires Linked(Ptrs(), e, s) && Skips(s, i, t) && s[i] == r
      modifies this
      ensures Linked(Ptrs(), e', t) && Loose(Ptrs(), r) && Elsewhere(old(Ptrs()), Ptrs(), Nodes(s))
    {
      assert i + 1 < |s| ==> next[r] == At(s[i + 1]);
      assert i > 0 ==> prev[r] == At(s[i - 1]);
      if e.first == e.last {
        assert |s| == 1;
        e' := Ends(Nil, Nil);
      } else if e.first == At(r) {
        e' := RemoveFirst(e, r, s, t);
      } else if e.last == At(r) {
        e' := RemoveLast(e, r, s, t);
      } else {
        RemoveMiddle(e, r, s, i, t);
        e' := e;
      }
    }

    method RemoveFirst(e: Ends, r: Ref, ghost s: seq<Ref>, ghost t: seq<Ref>) returns (e': Ends)
      requires Linked(Ptrs(), e, s) && Skips(s, 0, t) && s[0] == r && |s| > 1
      modifies this
      ensures Linked(Ptrs(), e', t) && Loose(Ptrs(), r) && Elsewhere(old(Ptrs()), Ptrs(), Nodes(s))
    {
      assert next[r] == At(s[1]);
      e' := e.(first := next[r]);
      next := next[r := Nil];
      prev := prev[e'.first.r := Nil];
    }

    method RemoveLast(e: Ends, r: Ref, ghost s: seq<Ref>, ghost t: seq<Ref>) returns (e': Ends)
      requires Linked(Ptrs(), e, s) && |s| > 1 && Skips(s, |s| - 1, t) && s[|s| - 1] == r
      modifies this
      ensures Linked(Ptrs(), e', t) && Loose(Ptrs(), r) && Elsewhere(old(Ptrs()), Ptrs(), Nodes(s))
    {
      assert prev[r] == At(s[|s| - 2]);
      e' := e.(last := prev[r]);
      prev := prev[r := Nil];
      next := next[e'.last.r := Nil];
    }

    method RemoveMiddle(e: Ends, r: Ref, ghost s: seq<Ref>, ghost i: nat, ghost t: seq<Ref>)
      requires Linked(Ptrs(), e, s) && 0 < i < |s| - 1 && Skips(s, i, t) && s[i] == r
      modifies this
      ensures Linked(Ptrs(), e, t) && Loose(Ptrs(), r) && Elsewhere(old(Ptrs()), Ptrs(), Nodes(s))
    {
      assert next[r] == At(s[i + 1]) && prev[r] == At(s[i - 1]);
      var n, p := next[r].r, prev[r].r;
      next := next[p := At(n)];
      prev := prev[n := At(p)];
      next := next[r := Nil];
      prev := prev[r := Nil];
    }

    /** A new node, on no list. */
    method Add(r: Ref)
      requires r !in next && r !in prev
      modifies this
      ensures next == old(next)[r := Nil] && prev == old(prev)[r := Nil]
    {
      next, prev := next[r := Nil], prev[r := Nil];
    }

    /** Puts node r behind the last one. */
    method Push(e: Ends, r: Ref, ghost s: seq<Ref>) returns (e': Ends)
      requires Linked(Ptrs(), e, s) && Loose(Ptrs(), r) && r !in s
      modifies this
      ensures Linked(Ptrs(), e', s + [r]) && Elsewhere(old(Ptrs()), Ptrs(), Nodes(s) + {r})
    {
      if e.first == Nil {
        e' := Ends(At(r), At(r));
      } else {
        var last := e.last.r;
        next := next[last := At(r)];
        prev := prev[r := At(last)];
        e' := e.(last := At(r));
      }
    }

    /** Puts node r behind node p, the i-th of the list. */
    method InsertAfter(e: Ends, p: Ref, r: Ref, ghost s: seq<Ref>, ghost i: nat, ghost t: seq<Ref>) returns (e': Ends)
      requires Linked(Ptrs(), e, s) && i < |s| && s[i] == p && Loose(Ptrs(), r) && r !in s && Inserts(s, i + 1, r, t)
      modifies this
      ensures Linked(Ptrs(), e', t) && Elsewhere(old(Ptrs()), Ptrs(), Nodes(s) + {r})
    {
      assert i + 1 < |s| ==> next[p] == At(s[i + 1]);
      if e.last == At(p) {
        next := next[p := At(r)];
        prev := prev[r := At(p)];
        e' := e.(last := At(r));
      } else {
        var n := next[p].r;
        next := next[r := At(n)];
        prev := prev[n := At(r)];
        next := next[p := At(r)];
        prev := prev[r := At(p)];
        e' := e;
      }
    }
  }
}
