/** Listing a directory in pages: the storage hands out pages with continuation tokens, the FUSE layer
    keeps one page per handle and serves it in pieces. */
module DirPaging {
  type Entry = string

  /** The listing of a directory as the service splits it. Token 0 asks for the first page and, as an
      answer, says there is no more; any other token is the number of a page. */
  function All(pages: seq<seq<Entry>>): seq<Entry>
  {
    if pages == [] then [] else All(pages[..|pages| - 1]) + pages[|pages| - 1]
  }

  function NextToken(pages: seq<seq<Entry>>, p: nat): nat { if p + 1 < |pages| then p + 1 else 0 }

  lemma {:induction false} AllPrefix(pages: seq<seq<Entry>>, p: nat)
    requires p <= |pages|
    ensures All(pages[..p]) <= All(pages)
  {
    var n := |pages|;
    if p < n {
      AllPrefix(pages[..n - 1], p);
      assert pages[..n - 1][..p] == pages[..p];
    } else {
      assert pages[..p] == pages;
    }
  }

  lemma AllStep(pages: seq<seq<Entry>>, p: nat)
    requires p < |pages|
    ensures All(pages[..p + 1]) == All(pages[..p]) + pages[p]
  {
    assert pages[..p + 1][..p] == pages[..p];
  }

  /** What a page starting at position `from` of the listing is. */
  ghost predicate PageAt(pages: seq<seq<Entry>>, p: nat, from: nat, list: seq<Entry>, token: nat)
  {
    && p < |pages| && from == |All(pages[..p])| && list == pages[p] && token == NextToken(pages, p)
    && from + |list| <= |All(pages)| && list == All(pages)[from..from + |list|] && (token == 0 ==>
        from + |list| == |All(pages)|)
  }

  lemma PageFacts(pages: seq<seq<Entry>>, p: nat)
    requires p < |pages|
    ensures PageAt(pages, p, |All(pages[..p])|, pages[p], NextToken(pages, p))
  {
    AllStep(pages, p);
    AllPrefix(pages, p);
    AllPrefix(pages, p + 1);
    assert pages[..|pages|] == pages;
  }

  /** The list call of the storage, which fails for the pages in `broken`, and StreamDir around it: an empty page that
      is not the last is skipped, so that an empty answer means the end. It fails exactly when one of the calls did. */
  method StreamDir(pages: seq<seq<Entry>>, token: nat, broken: set<nat>)
    returns (ok: bool, list: seq<Entry>, next: nat, ghost p: nat)
    requires token < |pages|
    ensures token <= p < |pages| && (forall q :: token <= q < p ==> q !in broken && pages[q] == [])
    ensures ok <==> p !in broken
    ensures ok ==> PageAt(pages, p, |All(pages[..token])|, list, next) && (list == [] ==> next == 0)
    decreases |pages| - token
  {
    ok := token !in broken;
    p := token;
    if !ok { return false, [], 0, token; }
    list, next := pages[token], NextToken(pages, token);
    PageFacts(pages, token);
    if next != 0 && list == [] {
      AllStep(pages, token);
      ok, list, next, p := StreamDir(pages, next, broken);
    }
  }

  class DirHandle {
    const pages: seq<seq<Entry>>
    var sIndex: nat
    var eIndex: nat
    var length: nat
    var token: nat
    var children: seq<Entry>

    constructor (pages: seq<seq<Entry>>)
      requires pages != []
      ensures this.pages == pages && Fresh()
    {
      this.pages := pages;
      sIndex, eIndex, length, token, children := 0, 0, 0, 0, [];
    }

    ghost predicate Fresh()
      reads this
    {
      pages != [] && token == 0 && eIndex == 0
    }

    /** The handle holds a page of the listing, and the reader is in it or at its end. */
    ghost predicate Serving(off: nat)
      reads this
    {
      && (exists p :: PageAt(pages, p, sIndex, children, token))
      && sIndex <= off <= eIndex == sIndex + length && length == |children|
    }

    /** libfuse_readdir from position `off`, with room for `room` entries. Without an error it returns
        the next entries of the listing, at least one if there is one; there is an error only when a list call for the
        page after the one it has failed. */
    method ReadDir(off: nat, room: nat, broken: set<nat>) returns (ok: bool, out: seq<Entry>)
      requires room > 0 && (if off == 0 then Fresh() else Serving(off))
      modifies this
      ensures ok ==> off + |out| <= |All(pages)| && out == All(pages)[off..off + |out|] && |out| <= room
      ensures ok ==> (out == [] <==> off == |All(pages)|)
      ensures ok && out != [] ==> |out| == room || off + |out| == eIndex
      ensures ok && off + |out| > 0 ==> Serving(off + |out|)
      ensures !ok ==> out == [] && unchanged(this)
      ensures !ok ==> (off == 0 || (off >= eIndex && token != 0))
      ensures !ok ==> exists q :: token <= q < |pages| && q in broken && forall r :: token <= r < q ==> pages[r] == []
    {
      ok, out := true, [];
      if off == 0 || (off >= eIndex && token != 0) {
        ghost var p;
        var attrs, next;
        ok, attrs, next, p := Fetch(off, broken);
        if !ok { return; }
        sIndex, eIndex, length, token, children := off, off + |attrs|, |attrs|, next, attrs;
        assert PageAt(pages, p, sIndex, children, token);
      }
      if off >= eIndex { return; }
      out := Fill(off, room);
    }

    /** The page that starts where the reader is. */
    method Fetch(off: nat, broken: set<nat>) returns (ok: bool, list: seq<Entry>, next: nat, ghost p: nat)
      requires if off == 0 then Fresh() else Serving(off) && off >= eIndex && token != 0
      ensures token <= p < |pages| && (forall q :: token <= q < p ==> pages[q] == []) && (ok <==> p !in broken)
      ensures ok ==> PageAt(pages, p, off, list, next) && (list == [] ==> next == 0)
    {
      if off > 0 {
        ghost var q :| PageAt(pages, q, sIndex, children, token);
        AllStep(pages, q);
      }
      ok, list, next, p := StreamDir(pages, token, broken);
    }

    /** Hands out entries until there is no room or the page ends. */
    method Fill(off: nat, room: nat) returns (out: seq<Entry>)
      requires Serving(off) && off < eIndex && room > 0
      ensures 0 < |out| <= room && off + |out| <= eIndex && out == All(pages)[off..off + |out|]
      ensures |out| == room || off + |out| == eIndex
    {
      out := [];
      var k := off - sIndex;
      while k < length && |out| < room
        invariant off - sIndex <= k <= length && |out| == k - (off - sIndex) <= room && out == children[off - sIndex..k]
      {
        out := out + [children[k]];
        k := k + 1;
      }
    }
  }

  /** A forward scan: each call goes on after the last entry the caller took. It returns every entry of
      the listing once and in order, and ends only when there is no more, or with an error when a list call failed. */
  method Scan(pages: seq<seq<Entry>>, broken: set<nat>) returns (ok: bool, all: seq<Entry>)
    requires pages != []
    ensures ok ==> all == All(pages)
    ensures !ok ==> all <= All(pages) && exists q :: 0 <= q < |pages| && q in broken
  {
    var dir := new DirHandle(pages);
    all := [];
    ok := true;
    var more := true;
    while more
      invariant dir.pages == pages && fresh(dir) && ok && all <= All(pages)
      invariant if |all| == 0 then !more || dir.Fresh() else dir.Serving(|all|)
      invariant !more ==> all == All(pages)
      decreases |All(pages)| - |all|, if more then 1 else 0
    {
      var room: nat :| room > 0;
      var out;
      ok, out := dir.ReadDir(|all|, room, broken);
      if !ok { return; }
      assert All(pages)[..|all| + |out|] == all + out;
      all := all + out;
      more := out != [];
    }
  }
}
