/** The passes of the LRU policy with the sweep of each detached file as a step of its own, so that files
    are used and purged between a pass and its sweeps. */
module Passes {
  import opened Sequences
  import opened Generations

  /** An operation, or the next look at a detached file by the pass that detached it. */
  datatype Event = Do(op: Op) | Look

  /** What was done up to the last pass and since, with every eviction as a purge; the files that pass
      detached, and how many of them it has looked at. */
  datatype History = History(before: seq<Op>, since: seq<Op>, items: seq<Name>, swept: nat)

  /** What has become of the node detached for a file: it still waits for the sweep, it was put back into
      the list, or it has left the map for good. */
  datatype Fate = Waiting | Used | Gone

  function FateOf(n: Name, since: seq<Op>): Fate
  {
    if since == [] then Waiting
    else Onward(n, FateOf(n, since[..|since| - 1]), since[|since| - 1])
  }

  function Onward(n: Name, f: Fate, op: Op): Fate
  {
    if op == Purge(n) then Gone else if op == Validate(n) && f != Gone then Used else f
  }

  /** The `deleted` flag of that node: a use clears it, and a purge sets it on a node no use can reach. */
  predicate FlagSet(n: Name, since: seq<Op>) { FateOf(n, since) != Used }

  function Log(h: History): seq<Op> { h.before + h.since }

  function After(h: History, e: Event): History
  {
    if e == Do(Detach) then History(Log(h) + [Detach], [], Run(Log(h)).back, 0)
    else if e.Do? then h.(since := h.since + [e.op])
    else if h.swept >= |h.items| then h
    else
      var n := h.items[h.swept];
      h.(since := if FlagSet(n, h.since) then h.since + [Purge(n)] else h.since, swept := h.swept + 1)
  }

  function Go(events: seq<Event>): History
  {
    if events == [] then History([], [], [], 0) else After(Go(events[..|events| - 1]), events[|events| - 1])
  }

  /** No pass starts before the last one has swept, or finds more than it may evict. */
  predicate Feasible(events: seq<Event>, maxEviction: nat)
  {
    forall i :: 0 <= i < |events| && events[i] == Do(Detach) ==> MayDetach(Go(events[..i]), maxEviction)
  }

  predicate MayDetach(h: History, maxEviction: nat) { h.swept == |h.items| && |Run(Log(h)).back| <= maxEviction }

  /** The events since the last pass detached its files. */
  function Later(events: seq<Event>): seq<Event>
  {
    if events == [] || events[|events| - 1] == Do(Detach) then []
    else Later(events[..|events| - 1]) + [events[|events| - 1]]
  }

  predicate Unswept(h: History, n: Name) { h.swept <= |h.items| && n in h.items[h.swept..] }

  /** What waits for the sweep is in limbo, and nothing else is; what was put back is listed. */
  ghost predicate Tracked(h: History)
  {
    && h.swept <= |h.items| && Unrepeated(h.items)
    && (forall n :: n in Run(Log(h)).limbo <==> Unswept(h, n) && FateOf(n, h.since) == Waiting)
    && (forall n :: Unswept(h, n) && FateOf(n, h.since) == Used ==> Listed(Run(Log(h)), n))
  }

  lemma LogMore(h: History, op: Op)
    ensures Run(Log(h.(since := h.since + [op]))) == Step(Run(Log(h)), op)
    ensures forall n :: FateOf(n, h.since + [op]) == Onward(n, FateOf(n, h.since), op)
  {
    RunStep(Log(h), op);
    assert Log(h.(since := h.since + [op])) == Log(h) + [op];
    assert (h.since + [op])[..|h.since|] == h.since;
  }

  /** One operation other than a pass, on what it says of file n. */
  lemma StepPlaces(g: Gens, op: Op, n: Name)
    requires op != Detach
    ensures n in Step(g, op).limbo <==> n in g.limbo && op != Purge(n) && op != Validate(n)
    ensures Listed(Step(g, op), n) <==> op == Validate(n) || (Listed(g, n) && op != Purge(n))
  {
    if op.Validate? || op.Purge? {
      MinusIn(g.front, op.name, n);
      MinusIn(g.middle, op.name, n);
      MinusIn(g.back, op.name, n);
      MinusIn(g.limbo, op.name, n);
    }
  }

  lemma TrackOp(h: History, op: Op)
    requires Tracked(h) && op != Detach
    ensures Tracked(h.(since := h.since + [op]))
  {
    hide Run, FateOf, Step, Listed;
    var h' := h.(since := h.since + [op]);
    LogMore(h, op);
    forall n ensures n in Run(Log(h')).limbo <==> Unswept(h', n) && FateOf(n, h'.since) == Waiting {
      StepPlaces(Run(Log(h)), op, n);
    }
    forall n | Unswept(h', n) && FateOf(n, h'.since) == Used ensures Listed(Run(Log(h')), n) {
      StepPlaces(Run(Log(h)), op, n);
    }
  }

  lemma SweptLess(h: History, n: Name)
    requires h.swept < |h.items| && Unrepeated(h.items)
    ensures Unswept(h.(swept := h.swept + 1), n) <==> Unswept(h, n) && n != h.items[h.swept]
  {
    assert h.items[h.swept..] == [h.items[h.swept]] + h.items[h.swept + 1..];
  }

  lemma TrackSweep(h: History)
    requires Tracked(h)
    ensures Tracked(After(h, Look))
  {
    hide Run, FateOf, Listed;
    if h.swept < |h.items| {
      var n := h.items[h.swept];
      forall m ensures Unswept(h.(swept := h.swept + 1), m) <==> Unswept(h, m) && m != n { SweptLess(h, m); }
      if FlagSet(n, h.since) {
        TrackOp(h, Purge(n));
        LogMore(h, Purge(n));
      }
    }
  }

  lemma TrackDetach(h: History)
    requires Tracked(h) && h.swept == |h.items|
    ensures Tracked(After(h, Do(Detach)))
  {
    var h', g := After(h, Do(Detach)), Run(Log(h));
    RunDistinct(Log(h));
    RunStep(Log(h), Detach);
    hide Run, Distinct;
    assert Log(h') == Log(h) + [Detach];
    NoneOrFirst(g.limbo);
    assert Run(Log(h')).limbo == g.back && h'.items[0..] == g.back;
    assert forall n :: FateOf(n, []) == Waiting;
  }

  /** In every run a pass has nothing left over from the one before. */
  lemma {:induction false} RunTracked(events: seq<Event>, maxEviction: nat)
    requires Feasible(events, maxEviction)
    ensures Tracked(Go(events))
    ensures Go(events).swept == |Go(events).items| ==> Run(Log(Go(events))).limbo == []
  {
    hide Run, FateOf, Listed;
    if events == [] {
      assert Log(Go(events)) == [] && Run([]) == Gens([], [], [], []) by { RunOfNone(); }
    } else {
      var rest, e := events[..|events| - 1], events[|events| - 1];
      FeasibleLess(events, maxEviction);
      RunTracked(rest, maxEviction);
      if e == Do(Detach) {
        TrackDetach(Go(rest));
      } else if e.Do? {
        TrackOp(Go(rest), e.op);
      } else {
        TrackSweep(Go(rest));
      }
    }
    var h := Go(events);
    NoneOrFirst(Run(Log(h)).limbo);
  }

  lemma RunOfNone()
    ensures Run([]) == Gens([], [], [], [])
  {
  }

  lemma FeasibleLess(events: seq<Event>, maxEviction: nat)
    requires Feasible(events, maxEviction) && events != []
    ensures var rest := events[..|events| - 1];
      && Feasible(rest, maxEviction)
      && (events[|events| - 1] == Do(Detach) ==> MayDetach(Go(rest), maxEviction))
  {
    var rest := events[..|events| - 1];
    forall i | 0 <= i < |rest| && rest[i] == Do(Detach) ensures MayDetach(Go(rest[..i]), maxEviction) {
      assert rest[..i] == events[..i] && events[i] == Do(Detach);
    }
  }

  /** The flag in one look: not used, or purged. */
  lemma {:induction false} FlagMeans(n: Name, since: seq<Op>)
    ensures FateOf(n, since) == Gone <==> Purge(n) in since
    ensures FateOf(n, since) == Waiting <==> Purge(n) !in since && Validate(n) !in since
  {
    if since != [] {
      var rest := since[..|since| - 1];
      FlagMeans(n, rest);
      assert since == rest + [since[|since| - 1]];
    }
  }

  /** For a file not swept yet, what was done since the pass is what callers asked for since. */
  lemma {:induction false} SinceIsLater(events: seq<Event>, maxEviction: nat, n: Name, op: Op)
    requires Feasible(events, maxEviction) && Unswept(Go(events), n) && (op == Validate(n) || op == Purge(n))
    ensures op in Go(events).since <==> Do(op) in Later(events)
  {
    hide Run, FateOf;
    if events != [] && events[|events| - 1] != Do(Detach) {
      var rest := events[..|events| - 1];
      FeasibleLess(events, maxEviction);
      RunTracked(rest, maxEviction);
      var h := Go(rest);
      if events[|events| - 1] == Look && h.swept < |h.items| { SweptLess(h, n); }
      SinceIsLater(rest, maxEviction, n, op);
    }
  }

  /** Which detached files a pass evicts, whatever happens between its parts: exactly those that were not
      used since they were detached, and those that were purged since. */
  lemma SweepEvicts(events: seq<Event>, maxEviction: nat)
    requires Feasible(events, maxEviction) && Go(events).swept < |Go(events).items|
    ensures var h, later := Go(events), Later(events); var n := h.items[h.swept];
      After(h, Look).since == h.since + [Purge(n)] <==> Do(Validate(n)) !in later || Do(Purge(n)) in later
  {
    var h := Go(events);
    var n := h.items[h.swept];
    assert n in h.items[h.swept..];
    SinceIsLater(events, maxEviction, n, Validate(n));
    SinceIsLater(events, maxEviction, n, Purge(n));
    FlagMeans(n, h.since);
    hide Go;
    assert |h.since + [Purge(n)]| != |h.since|;
  }

  /** Purged and then used, and not purged again. */
  predicate UsedAgain<T(==)>(s: seq<T>, use: T, purge: T)
  {
    exists i, j :: 0 <= i < j < |s| && s[i] == purge && s[j] == use && purge !in s[j..]
  }

  /** The last of the two is a use. */
  predicate LastlyUsed<T(==)>(s: seq<T>, use: T, purge: T)
  {
    exists j :: 0 <= j < |s| && s[j] == use && purge !in s[j..]
  }

  lemma AgainMeans<T>(s: seq<T>, use: T, purge: T)
    ensures UsedAgain(s, use, purge) <==> purge in s && LastlyUsed(s, use, purge)
  {
    if j :| 0 <= j < |s| && s[j] == use && purge !in s[j..] {
      if purge in s {
        var i :| 0 <= i < |s| && s[i] == purge;
        TailHas(s, i, j);
      }
    }
  }

  /** A detached file is listed again exactly when its last mention since is a use. */
  lemma {:induction false} ListedSince(before: seq<Op>, since: seq<Op>, n: Name)
    requires !Listed(Run(before), n) && Detach !in since
    ensures Listed(Run(before + since), n) <==> LastlyUsed(since, Validate(n), Purge(n))
  {
    hide Run, Listed;
    if since == [] {
      assert before + since == before;
    } else {
      var rest, op := since[..|since| - 1], since[|since| - 1];
      assert before + since == before + rest + [op];
      RunStep(before + rest, op);
      ListedSince(before, rest, n);
      StepPlaces(Run(before + rest), op, n);
      LastUseOf(rest, op, Validate(n), Purge(n));
      assert since == rest + [op];
    }
  }

  lemma LastUseOf<T>(rest: seq<T>, x: T, use: T, purge: T)
    requires use != purge
    ensures LastlyUsed(rest + [x], use, purge) <==> x == use || (x != purge && LastlyUsed(rest, use, purge))
  {
    var s := rest + [x];
    forall j | 0 <= j < |rest| ensures s[j..] == rest[j..] + [x] {}
    assert s[|rest|] == x && s[|rest|..] == [x];
    if j :| 0 <= j < |s| && s[j] == use && purge !in s[j..] {
      if j < |rest| {
        assert s[j..] == rest[j..] + [x] && x in s[j..];
        assert rest[j] == use && purge !in rest[j..];
      }
    }
    if x != purge {
      if j :| 0 <= j < |rest| && rest[j] == use && purge !in rest[j..] {
        assert s[j] == use && purge !in s[j..];
      }
    }
  }

  /** For a file not swept yet, the last of its uses and purges since the pass is the last callers asked for. */
  lemma {:induction false} LastIsLater(events: seq<Event>, maxEviction: nat, n: Name)
    requires Feasible(events, maxEviction) && Unswept(Go(events), n)
    ensures LastlyUsed(Go(events).since, Validate(n), Purge(n)) <==>
            LastlyUsed(Later(events), Do(Validate(n)), Do(Purge(n)))
  {
    hide Run, FateOf, LastlyUsed;
    if events == [] || events[|events| - 1] == Do(Detach) {
      NeverUsed<Op>(Validate(n), Purge(n));
      NeverUsed<Event>(Do(Validate(n)), Do(Purge(n)));
    } else {
      var rest, e := events[..|events| - 1], events[|events| - 1];
      FeasibleLess(events, maxEviction);
      RunTracked(rest, maxEviction);
      var h := Go(rest);
      LastUseOf(Later(rest), e, Do(Validate(n)), Do(Purge(n)));
      if e.Do? {
        LastUseOf(h.since, e.op, Validate(n), Purge(n));
      } else if h.swept < |h.items| {
        SweptLess(h, n);
        LastUseOf(h.since, Purge(h.items[h.swept]), Validate(n), Purge(n));
      }
      LastIsLater(rest, maxEviction, n);
    }
  }

  lemma NeverUsed<T>(use: T, purge: T)
    ensures !LastlyUsed([], use, purge)
  {
  }

  /** Detached files are not listed, and no pass has come after the one that detached them. */
  lemma {:induction false} SincePass(events: seq<Event>, maxEviction: nat, n: Name)
    requires Feasible(events, maxEviction) && Unswept(Go(events), n)
    ensures !Listed(Run(Go(events).before), n) && Detach !in Go(events).since
  {
    hide Run, FateOf, Listed;
    if events != [] {
      var rest, e := events[..|events| - 1], events[|events| - 1];
      FeasibleLess(events, maxEviction);
      RunTracked(rest, maxEviction);
      var h := Go(rest);
      if e == Do(Detach) {
        RunDistinct(Log(h));
        RunStep(Log(h), Detach);
        DetachUnlists(Run(Log(h)), n);
      } else {
        if e == Look && h.swept < |h.items| { SweptLess(h, n); }
        SincePass(rest, maxEviction, n);
      }
    }
  }

  lemma DetachUnlists(g: Gens, n: Name)
    requires Distinct(g) && n in g.back
    ensures !Listed(Step(g, Detach), n)
  {
  }

  /** A sweep takes a listed file exactly when the file was purged and then used again since the pass: the
      flag belongs to the node that was detached, the eviction to whatever has the name. */
  lemma SweepTakesListed(events: seq<Event>, maxEviction: nat)
    requires Feasible(events, maxEviction) && Go(events).swept < |Go(events).items|
    ensures var h := Go(events); var n := h.items[h.swept];
      Listed(Run(Log(h)), n) && !Listed(Run(Log(After(h, Look))), n) <==>
      UsedAgain(Later(events), Do(Validate(n)), Do(Purge(n)))
  {
    hide Run, Listed, UsedAgain, LastlyUsed;
    var h := Go(events);
    var n := h.items[h.swept];
    assert n in h.items[h.swept..];
    SincePass(events, maxEviction, n);
    ListedSince(h.before, h.since, n);
    SinceIsLater(events, maxEviction, n, Purge(n));
    LastIsLater(events, maxEviction, n);
    AgainMeans(Later(events), Do(Validate(n)), Do(Purge(n)));
    FlagMeans(n, h.since);
    hide Go, FateOf;
    if FlagSet(n, h.since) {
      LogMore(h, Purge(n));
      StepPlaces(Run(Log(h)), Purge(n), n);
      assert Log(After(h, Look)) == Log(h.(since := h.since + [Purge(n)]));
    } else {
      assert Log(After(h, Look)) == Log(h);
    }
    if LastlyUsed(h.since, Validate(n), Purge(n)) { UsedSince(h.since, Validate(n), Purge(n)); }
  }

  lemma UsedSince<T>(s: seq<T>, use: T, purge: T)
    requires LastlyUsed(s, use, purge)
    ensures use in s
  {
  }

  /** So it is in every run in which the next file to be swept is purged and used: it is listed, and evicted. */
  lemma PurgedThenUsed(events: seq<Event>, maxEviction: nat)
    requires Feasible(events, maxEviction) && Go(events).swept < |Go(events).items|
    ensures var n := Go(events).items[Go(events).swept]; var more := events + [Do(Purge(n))] + [Do(Validate(n))];
      && Feasible(more, maxEviction) && Go(more).swept == Go(events).swept && Go(more).items == Go(events).items
      && Listed(Run(Log(Go(more))), n) && !Listed(Run(Log(After(Go(more), Look))), n)
  {
    var h := Go(events);
    var n := h.items[h.swept];
    var purged := events + [Do(Purge(n))];
    var more := purged + [Do(Validate(n))];
    GoMore(events, Do(Purge(n)), maxEviction);
    GoMore(purged, Do(Validate(n)), maxEviction);
    SweepTakesListed(more, maxEviction);
    var later := Later(events) + [Do(Purge(n))] + [Do(Validate(n))];
    assert purged[..|events|] == events && more[..|purged|] == purged;
    assert Later(more) == later;
    hide Go, Run, Listed, Feasible;
    var k := |Later(events)|;
    assert later[k] == Do(Purge(n)) && later[k + 1] == Do(Validate(n)) && later[k + 1..] == [Do(Validate(n))];
  }

  lemma GoMore(events: seq<Event>, e: Event, maxEviction: nat)
    ensures Go(events + [e]) == After(Go(events), e)
    ensures Feasible(events, maxEviction) && e != Do(Detach) ==> Feasible(events + [e], maxEviction)
  {
    assert (events + [e])[..|events|] == events;
    assert forall i :: 0 <= i < |events| ==> (events + [e])[..i] == events[..i];
  }
}
