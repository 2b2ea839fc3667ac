/** The order of the cached files as the LRU policy means it: three generations cut by the two
    markers, and the expired files of a running pass that have left the list but not the map. */
module Generations {
  import opened Sequences

  type Name = string

  datatype Gens = Gens(front: seq<Name>, middle: seq<Name>, back: seq<Name>, limbo: seq<Name>)

  datatype Op = Validate(name: Name) | Purge(name: Name) | Mark | Detach

  function Minus(s: seq<Name>, n: Name): (r: seq<Name>)
    ensures n !in s ==> r == s
  {
    if s == [] then [] else if s[0] == n then Minus(s[1..], n) else [s[0]] + Minus(s[1..], n)
  }

  function Purged(g: Gens, n: Name): Gens
  {
    Gens(Minus(g.front, n), Minus(g.middle, n), Minus(g.back, n), Minus(g.limbo, n))
  }

  function Validated(g: Gens, n: Name): Gens
  {
    var p := Purged(g, n);
    p.(front := [n] + p.front)
  }

  function Marked(g: Gens): Gens { Gens([], g.front, g.middle + g.back, g.limbo) }

  function Detached(g: Gens): Gens { Gens(g.front, g.middle, [], g.limbo + g.back) }

  function Step(g: Gens, op: Op): Gens
  {
    match op
    case Validate(n) => Validated(g, n)
    case Purge(n) => Purged(g, n)
    case Mark => Marked(g)
    case Detach => Detached(g)
  }

  function Run(ops: seq<Op>): Gens
  {
    if ops == [] then Gens([], [], [], []) else Step(Run(ops[..|ops| - 1]), ops[|ops| - 1])
  }

  function InOrder(g: Gens): seq<Name> { g.front + g.middle + g.back }

  /** Files in the list: mapped and not already picked by the running pass. */
  predicate Listed(g: Gens, n: Name) { n in g.front || n in g.middle || n in g.back }

  /** Was n used after the Mark that is `marks` marks before the last one? */
  predicate UsedSince(ops: seq<Op>, n: Name, marks: nat)
  {
    if ops == [] then false
    else
      var rest, op := ops[..|ops| - 1], ops[|ops| - 1];
      if op == Validate(n) then true
      else if op.Mark? then marks > 0 && UsedSince(rest, n, marks - 1)
      else UsedSince(rest, n, marks)
  }

  /** Position of the last use of n in the run, -1 if there is none. */
  function LastUse(ops: seq<Op>, n: Name): int
  {
    if ops == [] then -1
    else if ops[|ops| - 1] == Validate(n) then |ops| - 1
    else LastUse(ops[..|ops| - 1], n)
  }

  lemma {:induction false} MinusIn(s: seq<Name>, n: Name, m: Name)
    ensures m in Minus(s, n) <==> m in s && m != n
  {
    if s != [] { MinusIn(s[1..], n, m); }
  }

  /** The three generations of a run, named by use alone: a listed file is in front exactly when it
      was used since the last pass moved a marker, in the middle exactly when it was used since the
      pass before and not since, and behind both markers exactly when it was not used since. */
  lemma {:induction false} GenerationsByUse(ops: seq<Op>, n: Name)
    ensures var g := Run(ops);
      && (n in g.front <==> Listed(g, n) && UsedSince(ops, n, 0))
      && (n in g.middle <==> Listed(g, n) && UsedSince(ops, n, 1) && !UsedSince(ops, n, 0))
      && (n in g.back <==> Listed(g, n) && !UsedSince(ops, n, 1))
  {
    if ops != [] {
      var rest, op := ops[..|ops| - 1], ops[|ops| - 1];
      var g := Run(rest);
      GenerationsByUse(rest, n);
      UsedLonger(rest, n);
      if op.Validate? || op.Purge? {
        MinusIn(g.front, op.name, n);
        MinusIn(g.middle, op.name, n);
        MinusIn(g.back, op.name, n);
      }
    }
  }

  lemma {:induction false} UsedLonger(ops: seq<Op>, n: Name)
    ensures UsedSince(ops, n, 0) ==> UsedSince(ops, n, 1)
  {
    if ops != [] && !ops[|ops| - 1].Mark? { UsedLonger(ops[..|ops| - 1], n); }
  }

  lemma RunStep(ops: seq<Op>, op: Op)
    ensures Run(ops + [op]) == Step(Run(ops), op)
  {
    assert (ops + [op])[..|ops|] == ops;
  }

  /** What the next pass detaches: exactly the listed files not used since the previous pass. */
  lemma {:induction false} PassSelectsUnused(ops: seq<Op>, n: Name)
    requires Run(ops).limbo == []
    ensures n in Run(ops + [Mark, Detach]).limbo <==> Listed(Run(ops), n) && !UsedSince(ops, n, 0)
  {
    RunStep(ops, Mark);
    RunStep(ops + [Mark], Detach);
    assert ops + [Mark, Detach] == ops + [Mark] + [Detach];
    GenerationsByUse(ops, n);
    UsedLonger(ops, n);
  }

  /** No name occurs twice, in one generation or in two. */
  ghost predicate Distinct(g: Gens)
  {
    && Unrepeated(g.front) && Unrepeated(g.middle) && Unrepeated(g.back) && Unrepeated(g.limbo)
    && (forall n :: n in g.front ==> n !in g.middle && n !in g.back && n !in g.limbo)
    && (forall n :: n in g.middle ==> n !in g.back && n !in g.limbo)
    && (forall n :: n in g.back ==> n !in g.limbo)
  }

  lemma {:induction false} MinusNoDup(s: seq<Name>, n: Name)
    requires Unrepeated(s)
    ensures Unrepeated(Minus(s, n))
  {
    if s != [] {
      MinusNoDup(s[1..], n);
      MinusIn(s[1..], n, s[0]);
    }
  }

  lemma PurgeDistinct(g: Gens, n: Name)
    requires Distinct(g)
    ensures Distinct(Purged(g, n))
    ensures forall m :: m in Purged(g, n).front <==> m in g.front && m != n
    ensures forall m :: m in Purged(g, n).middle <==> m in g.middle && m != n
    ensures forall m :: m in Purged(g, n).back <==> m in g.back && m != n
    ensures forall m :: m in Purged(g, n).limbo <==> m in g.limbo && m != n
  {
    MinusNoDup(g.front, n);
    MinusNoDup(g.middle, n);
    MinusNoDup(g.back, n);
    MinusNoDup(g.limbo, n);
    forall m ensures m in Purged(g, n).front <==> m in g.front && m != n { MinusIn(g.front, n, m); }
    forall m ensures m in Purged(g, n).middle <==> m in g.middle && m != n { MinusIn(g.middle, n, m); }
    forall m ensures m in Purged(g, n).back <==> m in g.back && m != n { MinusIn(g.back, n, m); }
    forall m ensures m in Purged(g, n).limbo <==> m in g.limbo && m != n { MinusIn(g.limbo, n, m); }
  }

  lemma NoDupConcat(s: seq<Name>, t: seq<Name>)
    requires Unrepeated(s) && Unrepeated(t) && forall n :: n in s ==> n !in t
    ensures Unrepeated(s + t)
  {
    var u := s + t;
    forall i, j | 0 <= i < j < |u| ensures u[i] != u[j] {
      if i < |s| <= j { assert s[i] in s && t[j - |s|] in t; }
    }
  }

  lemma StepDistinct(g: Gens, op: Op)
    requires Distinct(g)
    ensures Distinct(Step(g, op))
  {
    match op {
      case Mark => NoDupConcat(g.middle, g.back);
      case Detach => NoDupConcat(g.limbo, g.back);
      case Purge(n) => PurgeDistinct(g, n);
      case Validate(n) =>
        PurgeDistinct(g, n);
        NoDupConcat([n], Purged(g, n).front);
    }
  }

  /** In every run each cached file has exactly one place. */
  lemma {:induction false} RunDistinct(ops: seq<Op>)
    ensures Distinct(Run(ops))
  {
    if ops != [] {
      RunDistinct(ops[..|ops| - 1]);
      StepDistinct(Run(ops[..|ops| - 1]), ops[|ops| - 1]);
    }
  }

  /** Listed in order of use, the most recent first. */
  ghost predicate ByRecency(s: seq<Name>, ops: seq<Op>)
  {
    forall i, j :: 0 <= i < j < |s| ==> LastUse(ops, s[i]) > LastUse(ops, s[j])
  }

  lemma {:induction false} MinusAppend(s: seq<Name>, t: seq<Name>, n: Name)
    ensures Minus(s + t, n) == Minus(s, n) + Minus(t, n)
  {
    if s == [] {
      assert s + t == t;
    } else {
      assert (s + t)[1..] == s[1..] + t;
      MinusAppend(s[1..], t, n);
    }
  }

  /** Taking a name out keeps the rest in order, and each remaining name comes from the list. */
  lemma {:induction false} MinusKeepsRecency(s: seq<Name>, n: Name, ops: seq<Op>)
    requires ByRecency(s, ops)
    ensures ByRecency(Minus(s, n), ops)
  {
    if s != [] {
      MinusKeepsRecency(s[1..], n, ops);
      forall m | m in Minus(s[1..], n) ensures LastUse(ops, s[0]) > LastUse(ops, m) {
        MinusIn(s[1..], n, m);
      }
    }
  }

  lemma {:induction false} UseBound(ops: seq<Op>, n: Name)
    ensures -1 <= LastUse(ops, n) < |ops|
  {
    if ops != [] { UseBound(ops[..|ops| - 1], n); }
  }

  lemma PurgeOrder(g: Gens, n: Name)
    ensures InOrder(Purged(g, n)) == Minus(InOrder(g), n)
  {
    MinusAppend(g.front + g.middle, g.back, n);
    MinusAppend(g.front, g.middle, n);
  }

  /** One more operation that is not a use of any name in s keeps s in order. */
  lemma {:induction false} OrderAfter(s: seq<Name>, rest: seq<Op>, op: Op)
    requires ByRecency(s, rest) && forall m :: m in s ==> op != Validate(m)
    ensures ByRecency(s, rest + [op])
  {
    var ops := rest + [op];
    assert ops[..|ops| - 1] == rest;
    assert forall i :: 0 <= i < |s| ==> LastUse(ops, s[i]) == LastUse(rest, s[i]);
  }

  lemma {:induction false} ValidateOrder(s: seq<Name>, rest: seq<Op>, n: Name)
    requires ByRecency(s, rest)
    ensures ByRecency([n] + Minus(s, n), rest + [Validate(n)])
  {
    var ops, t := rest + [Validate(n)], Minus(s, n);
    MinusKeepsRecency(s, n, rest);
    forall m | m in t ensures m != n { MinusIn(s, n, m); }
    OrderAfter(t, rest, Validate(n));
    assert LastUse(ops, n) == |rest|;
    forall m | m in t ensures LastUse(ops, m) < |rest| {
      assert ops[..|ops| - 1] == rest;
      UseBound(rest, m);
    }
  }

  lemma {:induction false} StepOrder(g: Gens, rest: seq<Op>, op: Op)
    requires ByRecency(InOrder(g), rest)
    ensures ByRecency(InOrder(Step(g, op)), rest + [op])
  {
    var kept := InOrder(Step(g, op));
    match op {
      case Mark =>
        assert kept == InOrder(g);
        OrderAfter(kept, rest, op);
      case Detach =>
        assert forall i :: 0 <= i < |kept| ==> kept[i] == InOrder(g)[i];
        OrderAfter(kept, rest, op);
      case Purge(n) =>
        PurgeOrder(g, n);
        MinusKeepsRecency(InOrder(g), n, rest);
        OrderAfter(kept, rest, op);
      case Validate(n) =>
        PurgeOrder(g, n);
        assert kept == [n] + Minus(InOrder(g), n);
        ValidateOrder(InOrder(g), rest, n);
    }
  }

  /** In every run the list is in order of use. */
  lemma {:induction false} RecencyOrder(ops: seq<Op>)
    ensures ByRecency(InOrder(Run(ops)), ops)
  {
    if ops != [] {
      var rest, op := ops[..|ops| - 1], ops[|ops| - 1];
      RecencyOrder(rest);
      StepOrder(Run(rest), rest, op);
      assert ops == rest + [op];
    }
  }
}
