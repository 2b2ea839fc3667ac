/** The file cache's open-handle count and the per-file lock around it, against every interleaving of
    CreateFile, OpenFile, CloseFile and the eviction of local files. */
module OpenHandles {
  type Name = string
  type Tid = nat
  type Hid = nat

  const WORD: nat := 0x1_0000_0000    // the handle count is 32-bit

  /** Where a thread is in its operation; every step but the first two is taken with the file locked. */
  datatype Stage = Waiting | Entered | Decided(download: bool,
                                               fileExists: bool) | Opening | Copying | Opened | Counted | Doomed

  datatype Op = Create | Open | Close(handle: Hid) | Evict

  datatype Thread = Thread(op: Op, name: Name, stage: Stage)

  datatype Holder = Free | HeldBy(t: Tid)

  /** Handle counts and lock holders of the lock map, the local files, the running operations, and the
      handles that have been returned and not been closed. */
  datatype State = State(counts: map<Name, nat>, holders: map<Name, Holder>, local: set<Name>, threads: map<Tid,
                         Thread>, open: map<Hid, Name>)

  function Count(s: State, name: Name): nat { if name in s.counts then s.counts[name] else 0 }

  function HolderOf(s: State, name: Name): Holder { if name in s.holders then s.holders[name] else Free }

  ghost function Handles(s: State, name: Name): set<Hid> { set h | h in s.open && s.open[h] == name }

  datatype Event =
    | Begin(op: Op, name: Name)                                        // for Evict, the unlocked check has passed
    | Acquire
    | MakeLocal                                                        // create the local file
    | Decide(cached: bool, expired: bool, statFails: bool)             // isDownloadRequired
    | DropOld(deleted: bool)                                           // delete the old local file
    | StartCopy
    | EndCopy(ok: bool, removed: bool)                                 // a failed download removes the file
    | OpenLocal
    | Inc(handle: Hid)
    | Dec
    | CheckCount
    | Unlink
    | Leave                                                            // unlock, after success or an error

  /** Thread t takes a step. */
  ghost predicate Next(s: State, s': State, t: Tid, e: Event)
  {
    if e.Begin? then
      && t !in s.threads && s' == s.(threads := s.threads[t := Thread(e.op, e.name, Waiting)])
      && (e.op.Close? ==> e.op.handle in s.open && s.open[e.op.handle] == e.name
                          && forall u :: u in s.threads ==> s.threads[u].op != e.op)
    else
      && t in s.threads && var th := s.threads[t]; var n := th.name;
      match e
      case Begin(_, _) => false
      case Acquire =>
        th.stage == Waiting && HolderOf(s, n) == Free && s' == At(s, t, Entered).(holders := s.holders[n := HeldBy(t)])
      case MakeLocal =>
        th.op == Create && th.stage == Entered && s' == At(s, t, Opened).(local := s.local + {n})
      case Decide(cached, expired, statFails) =>
        && th.op == Open && th.stage == Entered
        && var fileExists := n in s.local && !statFails;
        && var download := !(fileExists && Count(s, n) > 0) && (!cached || !fileExists || expired);
        && s' == At(s, t, Decided(download, fileExists))
      case DropOld(deleted) =>
        th.stage == Decided(true, true) && s' == At(s, t, Opening).(local := if deleted then s.local - {n} else s.local)
      case StartCopy =>
        (th.stage == Opening || th.stage == Decided(true, false)) && s' == At(s, t, Copying).(local := s.local + {n})
      case EndCopy(ok, removed) =>
        th.stage == Copying && s' == if ok then At(s, t, Decided(false, true))
                                     else At(s, t, Counted).(local := if removed then s.local - {n} else s.local)
      case OpenLocal =>
        th.stage.Decided? && !th.stage.download && n in s.local && s' == At(s, t, Opened)
      case Inc(h) =>
        && th.stage == Opened && h !in s.open
        && s' == At(s, t, Counted).(counts := s.counts[n := (Count(s, n) + 1) % WORD], open := s.open[h := n])
      case Dec =>
        && th.op.Close? && th.stage == Entered
        && s' == At(s, t, Counted).(counts := s.counts[n := (Count(s, n) + WORD - 1) % WORD],
                                    open := s.open - {th.op.handle})
      case CheckCount =>
        th.op == Evict && th.stage == Entered && Count(s, n) == 0 && s' == At(s, t, Doomed)
      case Unlink =>
        th.stage == Doomed && s' == At(s, t, Counted).(local := s.local - {n})
      case Leave =>
        th.stage != Waiting && s' == s.(threads := s.threads - {t}, holders := s.holders[n := Free])
  }

  function At(s: State, t: Tid, stage: Stage): State
    requires t in s.threads
  {
    s.(threads := s.threads[t := s.threads[t].(stage := stage)])
  }

  /** A file is locked by the one thread that works on it. */
  ghost predicate Exclusive(s: State)
  {
    && (forall t :: t in s.threads && s.threads[t].stage != Waiting ==> HolderOf(s, s.threads[t].name) == HeldBy(t))
    && (forall n :: n in s.holders && s.holders[n].HeldBy? ==> WorksOn(s, s.holders[n].t, n))
  }

  ghost predicate WorksOn(s: State, t: Tid, n: Name)
  {
    t in s.threads && s.threads[t].name == n && s.threads[t].stage != Waiting
  }

  /** The count of a file is the number of its open handles, as far as 32 bits go. */
  ghost predicate Counting(s: State) { forall n :: Count(s, n) == |Handles(s, n)| % WORD }

  /** A thread about to delete or replace a local file has found no handle open on it, and one about
      to return a handle has the file. */
  ghost predicate Careful(s: State)
  {
    forall t :: t in s.threads ==>
      && (Deletes(s.threads[t]) ==> Count(s, s.threads[t].name) == 0)
      && (s.threads[t].stage == Opened ==> s.threads[t].name in s.local)
  }

  /** A handle that is being closed is open, and is being closed once. */
  ghost predicate Closing(s: State) { ClosedOnce(s) && forall t :: t in s.threads ==> StillOpen(s, s.threads[t]) }

  ghost predicate StillOpen(s: State, th: Thread)
  {
    th.op.Close? && th.stage != Counted ==> th.op.handle in s.open && s.open[th.op.handle] == th.name
  }

  ghost predicate ClosedOnce(s: State)
  {
    forall t, u :: t in s.threads && u in s.threads && s.threads[t].op.Close? && s.threads[t].op == s.threads[u].op ==>
      t == u
  }

  predicate Deletes(th: Thread)
  {
    || th.stage == Doomed || th.stage == Opening || th.stage == Copying
    || (th.stage.Decided? && th.stage.download)
  }

  /** An open handle has its local file. */
  ghost predicate Kept(s: State) { forall h :: h in s.open ==> s.open[h] in s.local }

  ghost predicate Inv(s: State) { Exclusive(s) && Counting(s) && Careful(s) && Closing(s) && Kept(s) }

  ghost predicate Init(s: State) { s.counts == map[] && s.holders == map[] && s.threads == map[] && s.open == map[] }

  lemma InitInv(s: State)
    requires Init(s)
    ensures Inv(s)
  {
    forall n ensures Handles(s, n) == {} { }
  }

  /** What a step does to threads and locks: it starts one, takes or returns a lock, or goes on. */
  ghost predicate Shape(s: State, s': State, t: Tid)
  {
    || (t !in s.threads && s'.holders == s.holders
        && exists th: Thread :: th.stage == Waiting && s'.threads == s.threads[t := th])
    || (t in s.threads && var th := s.threads[t];
        || (th.stage == Waiting && HolderOf(s, th.name) == Free && s'.threads == s.threads[t := th.(stage := Entered)]
            && s'.holders == s.holders[th.name := HeldBy(t)])
        || (th.stage != Waiting && s'.threads == s.threads - {t} && s'.holders == s.holders[th.name := Free])
        || (th.stage != Waiting && s'.holders == s.holders
            && exists st: Stage :: st != Waiting && s'.threads == s.threads[t := th.(stage := st)]))
  }

  lemma StepShape(s: State, s': State, t: Tid, e: Event)
    requires Next(s, s', t, e)
    ensures Shape(s, s', t)
  {
    if e.Begin? {
      assert s'.threads == s.threads[t := Thread(e.op, e.name, Waiting)];
    } else if !e.Leave? {
      assert t in s'.threads && s'.threads == s.threads[t := s.threads[t].(stage := s'.threads[t].stage)];
    }
  }

  lemma StepExclusive(s: State, s': State, t: Tid, e: Event)
    requires Exclusive(s) && Next(s, s', t, e)
    ensures Exclusive(s')
  {
    StepShape(s, s', t, e);
    hide Next;
    forall n | n in s'.holders && s'.holders[n].HeldBy? ensures WorksOn(s', s'.holders[n].t, n) {}
  }

  /** Two threads past the lock never work on the same file. */
  lemma OneAtATime(s: State, t: Tid, u: Tid)
    requires Exclusive(s) && t in s.threads && u in s.threads && s.threads[t].stage != Waiting
    requires s.threads[u].stage != Waiting
    ensures s.threads[t].name == s.threads[u].name ==> t == u
  {
  }

  lemma HandleAdded(s: State, s': State, h: Hid, name: Name, n: Name)
    requires h !in s.open && s'.open == s.open[h := name]
    ensures |Handles(s', n)| == |Handles(s, n)| + if n == name then 1 else 0
  {
    if n == name {
      assert Handles(s', n) == Handles(s, n) + {h};
    } else {
      assert Handles(s', n) == Handles(s, n);
    }
  }

  lemma HandleGone(s: State, s': State, h: Hid, n: Name)
    requires h in s.open && s'.open == s.open - {h}
    ensures |Handles(s', n)| == |Handles(s, n)| - if n == s.open[h] then 1 else 0
  {
    if n == s.open[h] {
      assert Handles(s, n) == Handles(s', n) + {h} && h !in Handles(s', n);
    } else {
      assert Handles(s', n) == Handles(s, n);
    }
  }

  lemma Wraps(k: nat)
    ensures (k % WORD + 1) % WORD == (k + 1) % WORD
    ensures k > 0 ==> (k % WORD + WORD - 1) % WORD == (k - 1) % WORD
  {
  }

  lemma StepCounting(s: State, s': State, t: Tid, e: Event)
    requires Counting(s) && Closing(s) && Next(s, s', t, e)
    ensures Counting(s')
  {
    forall n ensures Count(s', n) == |Handles(s', n)| % WORD {
      assert Count(s, n) == |Handles(s, n)| % WORD;
      Wraps(|Handles(s, n)|);
      if e.Inc? {
        HandleAdded(s, s', e.handle, s.threads[t].name, n);
      } else if e.Dec? {
        HandleGone(s, s', s.threads[t].op.handle, n);
      } else {
        SameHandles(s, s', t, e, n);
      }
    }
  }

  lemma SameHandles(s: State, s': State, t: Tid, e: Event, n: Name)
    requires Next(s, s', t, e) && !e.Inc? && !e.Dec?
    ensures Handles(s', n) == Handles(s, n) && Count(s', n) == Count(s, n)
  {
    assert s'.open == s.open && s'.counts == s.counts;
  }

  /** Fewer handles on each file than 32 bits can count. */
  ghost predicate Few(s: State) { forall n :: |Handles(s, n)| < WORD }

  /** The count is zero exactly when no handle is open. */
  lemma ZeroMeansNone(s: State, n: Name)
    requires Counting(s) && Few(s)
    ensures Count(s, n) == 0 <==> forall h :: h in s.open ==> s.open[h] != n
  {
    assert Count(s, n) == |Handles(s, n)| % WORD;
    if Handles(s, n) == {} {
      forall h | h in s.open ensures s.open[h] != n { assert h !in Handles(s, n); }
    } else {
      var h :| h in Handles(s, n);
    }
  }

  /** What OpenFile decides: with no handle open on the file, to download exactly when the file is not cached, or not
      there as far as a stat tells, or expired; with one, exactly when the stat does not show it and one of these. */
  lemma DownloadsWhen(s: State, s': State, t: Tid, cached: bool, expired: bool, statFails: bool)
    requires Counting(s) && Few(s) && Next(s, s', t, Decide(cached, expired, statFails))
    ensures t in s.threads && t in s'.threads && s'.threads[t].stage.Decided? && s'.local == s.local
    ensures var n, shown := s.threads[t].name, s.threads[t].name in s.local && !statFails;
      && s'.threads[t].stage.fileExists == shown
      && (s'.threads[t].stage.download <==>
            if forall h :: h in s.open ==> s.open[h] != n then !cached || !shown || expired else !shown)
  {
    ZeroMeansNone(s, s.threads[t].name);
  }

  /** isDownloadRequired cannot stat the local file, and a handle is open on it. */
  ghost predicate Misjudged(s: State, t: Tid, e: Event)
  {
    e.Decide? && e.statFails && t in s.threads && Count(s, s.threads[t].name) > 0
  }

  lemma StepCareful(s: State, s': State, t: Tid, e: Event)
    requires Exclusive(s) && Counting(s) && Careful(s) && Kept(s) && Few(s) && Next(s, s', t, e)
    ensures Careful(s') <==> !Misjudged(s, t, e)
  {
    if Misjudged(s, t, e) {
      assert Deletes(s'.threads[t]) && Count(s', s'.threads[t].name) > 0;
    } else {
      StaysCareful(s, s', t, e);
    }
  }

  lemma StaysCareful(s: State, s': State, t: Tid, e: Event)
    requires Exclusive(s) && Counting(s) && Careful(s) && Kept(s) && Few(s) && Next(s, s', t, e) && !Misjudged(s, t, e)
    ensures Careful(s')
  {
    if !e.Begin? { ZeroMeansNone(s, s.threads[t].name); }
    hide Counting, Few;
  }

  lemma StepClosing(s: State, s': State, t: Tid, e: Event)
    requires Closing(s) && Next(s, s', t, e)
    ensures Closing(s')
  {
    StepClosedOnce(s, s', t, e);
    hide ClosedOnce;
    if !e.Begin? { OpenAfter(s, s', t, e); }
  }

  lemma StepClosedOnce(s: State, s': State, t: Tid, e: Event)
    requires ClosedOnce(s) && Next(s, s', t, e)
    ensures ClosedOnce(s')
  {
    if !e.Begin? {
      StepShape(s, s', t, e);
      hide Next;
    }
  }

  lemma OpenAfter(s: State, s': State, t: Tid, e: Event)
    requires Next(s, s', t, e) && !e.Begin?
    ensures forall h :: h in s.open && !(e.Dec? && s.threads[t].op == Close(h)) ==>
      h in s'.open && s'.open[h] == s.open[h]
    ensures e.Dec? ==> t in s'.threads && s'.threads[t].stage == Counted
    ensures s.threads[t].stage == Counted && t in s'.threads ==> s'.threads[t].stage == Counted
  {
  }

  lemma StepKept(s: State, s': State, t: Tid, e: Event)
    requires Inv(s) && Few(s) && Next(s, s', t, e)
    ensures Kept(s')
  {
    if !e.Begin? { ZeroMeansNone(s, s.threads[t].name); }
  }

  /** No step makes an open handle lose its local file, or its count; and every step but a stat that fails
      for a file in use leaves a state from which none does. */
  lemma StepInv(s: State, s': State, t: Tid, e: Event)
    requires Inv(s) && Few(s) && Next(s, s', t, e)
    ensures Inv(s') <==> !Misjudged(s, t, e)
  {
    StepExclusive(s, s', t, e);
    StepCounting(s, s', t, e);
    StepCareful(s, s', t, e);
    StepClosing(s, s', t, e);
    StepKept(s, s', t, e);
    hide Next, Exclusive, Counting, Careful, Closing, Kept;
  }

  /** The states ss, from an initial one, each reached by a step of some thread. */
  ghost predicate Run(ss: seq<State>, ts: seq<Tid>, es: seq<Event>)
  {
    && |ss| == |es| + 1 == |ts| + 1 && Init(ss[0])
    && forall i, j :: 0 <= i && j == i + 1 < |ss| ==> Next(ss[i], ss[j], ts[i], es[i])
  }

  /** In every interleaving of any number of operations: counts are right, every open handle has its
      local file, and a local file is deleted only when no handle is open on it. This is so up to the
      first stat that fails for a file in use, and right after that one it is not. */
  lemma {:induction false} RunSafe(ss: seq<State>, ts: seq<Tid>, es: seq<Event>, n: nat)
    requires Run(ss, ts, es) && n < |ss| && (forall j :: 0 <= j < n ==> Few(ss[j]))
    ensures (forall i :: 0 <= i <= n ==> Inv(ss[i])) <==> (forall j :: 0 <= j < n ==> !Misjudged(ss[j], ts[j], es[j]))
  {
    hide Inv, Misjudged, Init, Next, Few;
    if n == 0 {
      InitInv(ss[0]);
    } else {
      RunSafe(ss, ts, es, n - 1);
      assert Next(ss[n - 1], ss[n], ts[n - 1], es[n - 1]);
      if Inv(ss[n - 1]) { StepInv(ss[n - 1], ss[n], ts[n - 1], es[n - 1]); }
    }
  }

  /** After a stat that failed for a file in use, a download that starts and fails loses the file. */
  lemma MisjudgedLoses(s: State, s': State, t: Tid, e: Event) returns (s1: State, s2: State)
    requires Inv(s) && Few(s) && Next(s, s', t, e) && Misjudged(s, t, e)
    ensures Next(s', s1, t, StartCopy) && Next(s1, s2, t, EndCopy(false, true)) && !Kept(s2)
  {
    var n := s.threads[t].name;
    ZeroMeansNone(s, n);
    var h :| h in s.open && s.open[h] == n;
    hide Inv, Few;
    s1, s2 := CopyLoses(s', t, h);
  }

  lemma CopyLoses(s: State, t: Tid, h: Hid) returns (s1: State, s2: State)
    requires t in s.threads && s.threads[t].stage == Decided(true, false) && h in s.open
    requires s.open[h] == s.threads[t].name
    ensures Next(s, s1, t, StartCopy) && Next(s1, s2, t, EndCopy(false, true)) && !Kept(s2)
  {
    var n := s.threads[t].name;
    s1 := At(s, t, Copying).(local := s.local + {n});
    s2 := At(s1, t, Counted).(local := s1.local - {n});
    assert h in s2.open && s2.open[h] !in s2.local;
  }

  lemma OnlyUnusedDeleted(s: State, s': State, t: Tid, e: Event, n: Name)
    requires Inv(s) && Few(s) && Next(s, s', t, e) && n in s.local && n !in s'.local
    ensures Handles(s, n) == {}
  {
    ZeroMeansNone(s, n);
  }

  lemma OneHandle(s: State)
    requires s == State(map["f" := 1], map[], {"f"}, map[], map[0 := "f"])
    ensures Inv(s) && Few(s)
  {
    forall n ensures Count(s, n) == |Handles(s, n)| % WORD && |Handles(s, n)| < WORD {
      assert Handles(s, n) == if n == "f" then {0} else {};
    }
  }

  /** When the stat of a file that is there fails, the file is downloaded over the one in use, and a
      download that fails deletes it. */
  lemma StatFailureDeletes() returns (s0: State, s1: State, s2: State, s3: State, s4: State, s5: State)
    ensures Inv(s0) && Few(s0) && 0 in s0.open
    ensures Next(s0, s1, 1, Begin(Open, "f")) && Next(s1, s2, 1, Acquire) && Next(s2, s3, 1, Decide(false, false, true))
    ensures Next(s3, s4, 1, StartCopy) && Next(s4, s5, 1, EndCopy(false, true)) && !Kept(s5)
  {
    s0 := State(map["f" := 1], map[], {"f"}, map[], map[0 := "f"]);
    OneHandle(s0);
    s1, s2, s3 := DecidesToDownload(s0);
    hide Inv, Few, Next, Kept;
    s4, s5 := CopyLoses(s3, 1, 0);
  }

  lemma DecidesToDownload(s0: State) returns (s1: State, s2: State, s3: State)
    requires s0.threads == map[] && s0.holders == map[] && "f" in s0.local
    ensures Next(s0, s1, 1, Begin(Open, "f")) && Next(s1, s2, 1, Acquire) && Next(s2, s3, 1, Decide(false, false, true))
    ensures s3.threads == map[1 := Thread(Open, "f", Decided(true, false))] && s3.open == s0.open
    ensures s3.local == s0.local
  {
    s1 := s0.(threads := map[1 := Thread(Open, "f", Waiting)]);
    s2 := At(s1, 1, Entered).(holders := map["f" := HeldBy(1)]);
    s3 := At(s2, 1, Decided(true, false));
  }
}
