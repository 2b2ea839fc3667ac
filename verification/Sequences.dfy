/** Sequences that stand for lists of nodes. */
module Sequences {
  ghost predicate Unrepeated<T>(s: seq<T>) { forall i, j :: 0 <= i < j < |s| ==> s[i] != s[j] }

  function Without<T>(s: seq<T>, i: nat): seq<T>
    requires i < |s|
  {
    s[..i] + s[i + 1..]
  }

  /** t is s without its element i. */
  ghost predicate Skips<T>(s: seq<T>, i: nat, t: seq<T>)
  {
    i < |s| == |t| + 1 && forall k {:trigger t[k]} :: 0 <= k < |t| ==> t[k] == if k < i then s[k] else s[k + 1]
  }

  lemma WithoutSkips<T>(s: seq<T>, i: nat)
    requires i < |s|
    ensures Skips(s, i, Without(s, i))
  {
  }

  lemma SkipMember<T>(s: seq<T>, i: nat, t: seq<T>, x: T)
    requires Skips(s, i, t) && Unrepeated(s)
    ensures x in t <==> x in s && x != s[i]
  {
    if x in s && x != s[i] {
      var k :| 0 <= k < |s| && s[k] == x;
      assert t[if k < i then k else k - 1] == x;
    }
  }

  lemma WithoutMember<T>(s: seq<T>, i: nat)
    requires i < |s| && Unrepeated(s)
    ensures Unrepeated(Without(s, i)) && forall x :: x in Without(s, i) <==> x in s && x != s[i]
  {
    WithoutSkips(s, i);
    forall x ensures x in Without(s, i) <==> x in s && x != s[i] { SkipMember(s, i, Without(s, i), x); }
  }

  lemma NoneOrFirst<T>(s: seq<T>)
    ensures s == [] || s[0] in s
  {
  }

  lemma TailHas<T>(s: seq<T>, i: nat, j: nat)
    ensures j <= i < |s| ==> s[i] in s[j..]
  {
    if j <= i < |s| { assert s[j..][i - j] == s[i]; }
  }

  lemma FrontGone<T>(s: seq<T>)
    requires s != [] && Unrepeated(s)
    ensures Unrepeated(s[1..]) && forall x :: x in s[1..] <==> x in s && x != s[0]
  {
  }
}
