/** What exactly an undisturbed start or stop changes, and when a start leaves its whole dependency cone up. */
module SupervisorOutcome {
  import opened CircuitBreaker
  import opened Timestamps
  import opened Supervisor
  import opened SupervisorGraph
  import opened SupervisorSafety
  import opened SupervisorProgress

  // ---- what a start brings up -------------------------------------------------------------------

  lemma {:induction false} WantedUp(cfg: Config, s: State, s': State, path: seq<Name>)
    requires Grown(cfg, s, s') && path != [] && DependencyPath(cfg, path) && Up(s', path[0]) && DepsUp(cfg, s', path[0])
    requires forall i :: 0 < i < |path| ==> !Up(s, path[i])
    ensures Up(s', path[|path| - 1])
    decreases |path|
  {
    if |path| > 1 {
      assert Up(s', path[1]);
      hide Up;
      forall i | 0 < i < |path[1..]|
        ensures !Up(s, path[1..][i])
      {
        assert path[1..][i] == path[i + 1];
      }
      WantedUp(cfg, s, s', path[1..]);
    }
  }

  /** After a start of `n` exactly these are up: what was, `n`, and what `depends_on` leads to from `n` over
      projects that were not up. */
  lemma WhatComesUp(cfg: Config, s: State, k: nat, n: Name, s': State, o: nat, m: Name)
    requires Launches(cfg, s, k, n, s', o)
    ensures Up(s', m) <==> Up(s, m) || m == n || Wanted(cfg, s, n, m)
  {
    hide Leads, Up;
    ServingUp(s', n, o);
    if Wanted(cfg, s, n, m) {
      var path :| WantPath(cfg, s, path) && path[0] == n && path[|path| - 1] == m;
      WantedUp(cfg, s, s', path);
    }
  }

  /** So the whole cone is up exactly if each of its projects was, or the start gets to it. */
  lemma WholeConeUpIff(cfg: Config, s: State, k: nat, n: Name, s': State, o: nat)
    requires Launches(cfg, s, k, n, s', o)
    ensures (forall m :: InCone(cfg, n, m) ==> Up(s', m))
            <==> forall m :: InCone(cfg, n, m) ==> Up(s, m) || m == n || Wanted(cfg, s, n, m)
  {
    hide Launches, Up, InCone, Wanted;
    forall m
      ensures Up(s', m) <==> Up(s, m) || m == n || Wanted(cfg, s, n, m)
    {
      WhatComesUp(cfg, s, k, n, s', o, m);
    }
  }

  /** With its direct dependencies up, a start looks no further. */
  lemma PassedOver(cfg: Config, s: State, k: nat, n: Name, s': State, o: nat, m: Name)
    requires Launches(cfg, s, k, n, s', o) && DepsUp(cfg, s, n)
    ensures Up(s', m) <==> Up(s, m) || m == n
  {
    WhatComesUp(cfg, s, k, n, s', o, m);
    hide Launches, Up;
    forall path
      ensures WantPath(cfg, s, path) ==> path[0] != n
    {
      assert WantPath(cfg, s, path) ==> !Up(s, path[1]) && DependsOn(cfg, path[0], path[1]);
    }
  }

  // ---- the whole cone ------------------------------------------------------------------------

  lemma {:induction false} PathMore(cfg: Config, path: seq<Name>, d: Name)
    requires path != [] && DependencyPath(cfg, path) && DependsOn(cfg, path[|path| - 1], d)
    ensures DependencyPath(cfg, path + [d])
    decreases |path|
  {
    assert (path + [d])[1..] == path[1..] + [d];
    if |path| > 1 {
      PathMore(cfg, path[1..], d);
    } else {
      assert DependencyPath(cfg, [d]);
    }
  }

  lemma ConeMore(cfg: Config, n: Name, m: Name, d: Name)
    requires InCone(cfg, n, m) && DependsOn(cfg, m, d)
    ensures InCone(cfg, n, d)
  {
    var path :| path != [] && path[0] == n && path[|path| - 1] == m && DependencyPath(cfg, path);
    PathMore(cfg, path, d);
    assert (path + [d])[0] == n && (path + [d])[|path + [d]| - 1] == d;
  }

  /** Whatever is up in the cone of `n` has its dependencies up. */
  ghost predicate Settled(cfg: Config, s: State, n: Name) {
    forall m :: InCone(cfg, n, m) && Up(s, m) ==> DepsUp(cfg, s, m)
  }

  lemma {:induction false} PathUp(cfg: Config, s: State, s': State, n: Name, path: seq<Name>)
    requires Settled(cfg, s, n) && Grown(cfg, s, s') && DepsUp(cfg, s', n)
    requires path != [] && DependencyPath(cfg, path) && InCone(cfg, n, path[0]) && Up(s', path[0])
    ensures Up(s', path[|path| - 1])
    decreases |path|
  {
    if |path| > 1 {
      var x, d := path[0], path[1];
      assert DepsUp(cfg, s', x) by {
        if x != n && Up(s, x) { assert DepsUp(cfg, s, x); }
      }
      ConeMore(cfg, n, x, d);
      PathUp(cfg, s, s', n, path[1..]);
    }
  }

  /** If whatever was up in the cone had its own dependencies up, then after the start every transitive
      dependency is up. (A dependency that is up is passed over without looking at what it depends on.) */
  lemma WholeConeUp(cfg: Config, s: State, s': State, n: Name, m: Name)
    requires Settled(cfg, s, n) && Grown(cfg, s, s') && Up(s', n) && DepsUp(cfg, s', n) && InCone(cfg, n, m)
    ensures Up(s', m)
  {
    var path :| path != [] && path[0] == n && path[|path| - 1] == m && DependencyPath(cfg, path);
    ConeSelf(cfg, n);
    PathUp(cfg, s, s', n, path);
  }

  // ---- a stop -------------------------------------------------------------------------------------

  /** Steps of caller `k` alone end its stop of `n` in `s'`: the registered process is dead, flagged and marked
      stopped, and nothing else has changed. */
  ghost predicate Stops(cfg: Config, s: State, k: nat, n: Name, s': State) {
    && Client(k) !in s.threads && n in s.projects && s.projects[n] < |s.objs|
    && Leads(cfg, Do(cfg, s, Begin(k, true, n)), Client(k), s')
    && s' == s.(objs := s.objs[s.projects[n] := Halted(s.objs[s.projects[n]])], threads := s.threads[Client(k) := Thread(Caller, [])])
  }

  lemma LookedForStop(cfg: Config, s: State, t: Tid, c: Call)
    requires Inv(cfg, s) && Calling(s, t, [], c) && c.stop && c.pc == Lookup && c.name in s.projects
    ensures var s' := Onward(s, t, [], c.(pc := Flag(s.projects[c.name]))); Leads(cfg, s, t, s') && Inv(cfg, s')
  {
    hide Inv, CanRun, Leads, CallOk;
    CanGo(cfg, s, t, [], c);
    OnwardIsAdvance(s, t, [], c, c.(pc := Flag(s.projects[c.name])));
    CallStep(cfg, s, t, [], c, Onward(s, t, [], c.(pc := Flag(s.projects[c.name]))));
  }

  lemma LockedForStop(cfg: Config, s: State, t: Tid, c: Call)
    requires Inv(cfg, s) && Calling(s, t, [], c) && c.stop && c.pc == Lock && c.name !in s.locks
    ensures var s' := Onward(s.(locks := s.locks[c.name := t]), t, [], c.(pc := Lookup)); Leads(cfg, s, t, s') && Inv(cfg, s')
  {
    hide Inv, CanRun, Leads, CallOk;
    CanGo(cfg, s, t, [], c);
    var r := s.(locks := s.locks[c.name := t]);
    OnwardIsAdvance(r, t, [], c, c.(pc := Lookup));
    CallStep(cfg, s, t, [], c, Onward(r, t, [], c.(pc := Lookup)));
  }

  lemma StopCall(cfg: Config, s: State, t: Tid, c: Call)
    requires Inv(cfg, s) && Calling(s, t, [], c) && c.stop && c.pc == Lock && c.name !in s.locks
    requires c.name in s.projects && s.projects[c.name] < |s.objs|
    ensures var o := s.projects[c.name];
            var s' := Onward(s.(locks := s.locks[c.name := t], objs := s.objs[o := Halted(s.objs[o])]), t, [], c.(pc := Unlock(true)));
            Leads(cfg, s, t, s') && Inv(cfg, s')
  {
    hide Inv, Leads;
    var o, r := s.projects[c.name], s.(locks := s.locks[c.name := t]);
    var s1 := Onward(r, t, [], c.(pc := Lookup));
    var s2 := Onward(r, t, [], c.(pc := Flag(o)));
    var s3 := Onward(r.(objs := r.objs[o := Halted(r.objs[o])]), t, [], c.(pc := Unlock(true)));
    LockedForStop(cfg, s, t, c);
    OnwardTwice(r, t, [], c.(pc := Lookup), c.(pc := Flag(o)));
    LookedForStop(cfg, s1, t, c.(pc := Lookup));
    StopRunning(cfg, r, t, [], c, o);
    LeadsOn(cfg, s, t, s1, s2);
    LeadsOn(cfg, s, t, s2, s3);
  }

  /** So does every stop of a registered project whose lock is free, whatever the rest of the state; and then no
      process of the project is left. */
  lemma StopTakesDown(cfg: Config, now: int, run: seq<Action>, k: nat, n: Name)
    requires Feasible(cfg, Initial(now), run)
    requires var s := Exec(cfg, Initial(now), run); Client(k) !in s.threads && n in s.projects && n !in s.locks
    ensures exists s' :: Stops(cfg, Exec(cfg, Initial(now), run), k, n, s') && NoneLive(s', n)
  {
    hide *;
    var s' := StoppingCall(cfg, now, run, k, n);
  }

  lemma StoppingCall(cfg: Config, now: int, run: seq<Action>, k: nat, n: Name) returns (s': State)
    requires Feasible(cfg, Initial(now), run)
    requires var s := Exec(cfg, Initial(now), run); Client(k) !in s.threads && n in s.projects && n !in s.locks
    ensures Stops(cfg, Exec(cfg, Initial(now), run), k, n, s') && NoneLive(s', n)
  {
    InitialOk(cfg, now);
    RunKeeps(cfg, Initial(now), run);
    hide *;
    s' := StopFrom(cfg, Exec(cfg, Initial(now), run), k, n);
  }

  lemma StopFrom(cfg: Config, s: State, k: nat, n: Name) returns (s': State)
    requires Inv(cfg, s) && Client(k) !in s.threads && n in s.projects && n !in s.locks
    ensures Stops(cfg, s, k, n, s') && NoneLive(s', n)
  {
    hide Inv, Leads, Do, Calling, Onward, NoneLive, RunCall, RunWatch, CanRun;
    var t, c := Client(k), Call(true, n, Lock, 0, 0);
    var s1 := Do(cfg, s, Begin(k, true, n));
    BegunStop(cfg, s, k, n);
    TableEntry(cfg, s, c);
    StopCall(cfg, s1, t, c);
    var o := s.projects[n];
    var s2 := Onward(s1.(locks := s1.locks[n := t], objs := s1.objs[o := Halted(s1.objs[o])]), t, [], c.(pc := Unlock(true)));
    StopState(s1, t, c, o);
    s' := DoFinish(cfg, s2, t, c.(pc := Unlock(true)));
    LeadsOn(cfg, s1, t, s2, s');
    assert s'.locks == s.locks;
    NoLiveLeft(cfg, s', n);
  }

  lemma BegunStop(cfg: Config, s: State, k: nat, n: Name)
    requires Inv(cfg, s) && Client(k) !in s.threads
    ensures var s1, c := Do(cfg, s, Begin(k, true, n)), Call(true, n, Lock, 0, 0);
            Inv(cfg, s1) && Calling(s1, Client(k), [], c) && s1 == s.(threads := s.threads[Client(k) := Thread(Caller, [c])])
  {
    StepKeeps(cfg, s, Begin(k, true, n));
    hide Inv;
    CallingAlone(Do(cfg, s, Begin(k, true, n)), Client(k), Call(true, n, Lock, 0, 0));
  }

  lemma StopState(s: State, t: Tid, c: Call, o: nat)
    requires Calling(s, t, [], c) && o < |s.objs|
    ensures var s' := Onward(s.(locks := s.locks[c.name := t], objs := s.objs[o := Halted(s.objs[o])]), t, [], c.(pc := Unlock(true)));
            && Calling(s', t, [], c.(pc := Unlock(true))) && s'.threads == s.threads[t := s'.threads[t]] && s'.threads[t].base == s.threads[t].base
            && s' == s.(locks := s.locks[c.name := t], objs := s.objs[o := Halted(s.objs[o])], threads := s'.threads)
  {}

  lemma NoLiveLeft(cfg: Config, s: State, n: Name)
    requires Inv(cfg, s) && n !in s.locks && n in s.projects && s.projects[n] < |s.objs| && !s.objs[s.projects[n]].live
    ensures NoneLive(s, n)
  {
    forall x | 0 <= x < |s.objs| && s.objs[x].name == n
      ensures !s.objs[x].live
    {
      assert ObjOk(s, x);
    }
  }

  // ---- a start that does not leave its whole cone up ---------------------------------------------------

  lemma {:induction false} RunJoin(cfg: Config, s: State, a: seq<Action>, b: seq<Action>)
    requires Feasible(cfg, s, a) && Feasible(cfg, Exec(cfg, s, a), b)
    ensures Feasible(cfg, s, a + b) && Exec(cfg, s, a + b) == Exec(cfg, Exec(cfg, s, a), b)
    decreases |a|
  {
    hide Can, Do;
    if a == [] {
      assert [] + b == b;
    } else {
      RunJoin(cfg, Do(cfg, s, a[0]), a[1..], b);
      assert (a + b)[1..] == a[1..] + b;
    }
  }

  lemma {:induction false} ClientsBelow(tids: set<Tid>) returns (k: nat)
    ensures forall j: nat :: k <= j ==> Client(j) !in tids
  {
    if tids == {} {
      k := 0;
    } else {
      var t :| t in tids;
      k := ClientsBelow(tids - {t});
      if t.Client? && k <= t.k { k := t.k + 1; }
    }
  }

  /** Some caller that has not called yet. */
  lemma NewClient(s: State) returns (k: nat)
    ensures Client(k) !in s.threads
  {
    k := ClientsBelow(s.threads.Keys);
    assert Client(k) !in s.threads.Keys;
  }

  /** The run followed by a call of client `k` and its steps. */
  lemma CalledRun(cfg: Config, now: int, run: seq<Action>, k: nat, stop: bool, n: Name, s': State) returns (longer: seq<Action>)
    requires Feasible(cfg, Initial(now), run)
    requires var s := Exec(cfg, Initial(now), run); Client(k) !in s.threads && Leads(cfg, Do(cfg, s, Begin(k, stop, n)), Client(k), s')
    ensures Feasible(cfg, Initial(now), longer) && Exec(cfg, Initial(now), longer) == s'
  {
    hide Leads, Do;
    var s := Exec(cfg, Initial(now), run);
    var begin := Begin(k, stop, n);
    var steps := LeadingRun(cfg, Do(cfg, s, begin), Client(k), s');
    Prepended(cfg, s, begin, steps);
    RunJoin(cfg, Initial(now), run, [begin] + steps);
    longer := run + ([begin] + steps);
  }

  const CHAIN: Config := Config(map["a" := ["b"], "b" := ["c"], "c" := []], {})

  lemma ChainStartable()
    ensures Startable(CHAIN, "a") && Startable(CHAIN, "b") && InCone(CHAIN, "a", "c")
  {
    assert StartableIn(CHAIN, "c", 1);
    assert StartableIn(CHAIN, "b", 2);
    assert StartableIn(CHAIN, "a", 3);
    assert DependencyPath(CHAIN, ["c"]) && ["b", "c"][1..] == ["c"];
    assert DependencyPath(CHAIN, ["b", "c"]) && ["a", "b", "c"][1..] == ["b", "c"];
    var path := ["a", "b", "c"];
    assert DependencyPath(CHAIN, path) && path[0] == "a" && path[|path| - 1] == "c";
  }

  lemma NothingHeld(cfg: Config, s: State, n: Name)
    requires s.locks == map[] && s.crashes == map[]
    ensures ConeFree(cfg, s, n)
  {
    assert After([], s.now - CRASH_WINDOW) == [];
  }

  /** b is up and its dependency c is not. */
  ghost predicate Gap(s: State) {
    s.locks == map[] && s.crashes == map[] && Up(s, "b") && !Up(s, "c")
  }

  /** Starting b and then stopping c, which nothing prevents, leads there. */
  lemma GapReached(now: int) returns (run: seq<Action>)
    ensures Feasible(CHAIN, Initial(now), run) && Gap(Exec(CHAIN, Initial(now), run))
  {
    ChainStartable();
    hide Startable, InCone, Leads, ConeFree, Serving, Do, Grown, OnlyWanted;
    assert Exec(CHAIN, Initial(now), []) == Initial(now);
    NothingHeld(CHAIN, Initial(now), "b");
    var s1, o := LaunchingStart(CHAIN, now, [], 0, "b");
    ServingUp(s1, "b", o);
    assert Up(s1, "c") by { assert "c" in CHAIN.deps["b"]; }
    var run1 := CalledRun(CHAIN, now, [], 0, false, "b", s1);
    var k := NewClient(s1);
    var s2 := StoppingCall(CHAIN, now, run1, k, "c");
    run := CalledRun(CHAIN, now, run1, k, true, "c", s2);
    InitialOk(CHAIN, now);
    RunKeeps(CHAIN, Initial(now), run1);
    TableEntry(CHAIN, s1, Call(true, "c", Lock, 0, 0));
  }

  /** A start of a then passes over b without looking at c, which stays down. */
  lemma StoppedBelowStaysDown(now: int)
    ensures exists run, k, s', o ::
              && Feasible(CHAIN, Initial(now), run) && Launches(CHAIN, Exec(CHAIN, Initial(now), run), k, "a", s', o)
              && InCone(CHAIN, "a", "c") && !Up(s', "c")
  {
    ChainStartable();
    hide Startable, InCone, Launches, ConeFree, Up, Feasible, Exec;
    var run := GapReached(now);
    var s := Exec(CHAIN, Initial(now), run);
    var k := NewClient(s);
    NothingHeld(CHAIN, s, "a");
    var s', o := LaunchingStart(CHAIN, now, run, k, "a");
    assert DepsUp(CHAIN, s, "a") by { assert CHAIN.deps["a"] == ["b"]; }
    PassedOver(CHAIN, s, k, "a", s', o, "c");
  }

  // ---- a stop that finds nothing, and what either stop answers --------------------------------------------

  /** In every reachable state, an undisturbed stop whose lock is free comes to its end with success if the
      project is registered and with failure if not. */
  lemma StopAnswers(cfg: Config, now: int, run: seq<Action>, k: nat, n: Name)
    requires Feasible(cfg, Initial(now), run)
    requires var s := Exec(cfg, Initial(now), run); Client(k) !in s.threads && n !in s.locks
    ensures var s := Exec(cfg, Initial(now), run);
            exists s' :: Leads(cfg, Do(cfg, s, Begin(k, true, n)), Client(k), s')
                         && Calling(s', Client(k), [], Call(true, n, Unlock(n in s.projects), 0, 0))
                         && s'.projects == s.projects && (n !in s.projects ==> s'.objs == s.objs)
  {
    InitialOk(cfg, now);
    RunKeeps(cfg, Initial(now), run);
    hide *;
    var s' := AnsweredStop(cfg, Exec(cfg, Initial(now), run), k, n);
  }

  lemma AnsweredStop(cfg: Config, s: State, k: nat, n: Name) returns (s': State)
    requires Inv(cfg, s) && Client(k) !in s.threads && n !in s.locks
    ensures Can(cfg, s, Begin(k, true, n))
    ensures Leads(cfg, Do(cfg, s, Begin(k, true, n)), Client(k), s') && Calling(s', Client(k), [], Call(true, n, Unlock(n in s.projects), 0, 0))
    ensures s'.projects == s.projects && (n !in s.projects ==> s'.objs == s.objs)
  {
    hide Inv, Leads, Do, Calling, RunCall, RunWatch, CanRun;
    var t, c := Client(k), Call(true, n, Lock, 0, 0);
    var s1 := Do(cfg, s, Begin(k, true, n));
    BegunStop(cfg, s, k, n);
    TableEntry(cfg, s, c);
    if n in s.projects {
      var o := s.projects[n];
      StopCall(cfg, s1, t, c);
      StopState(s1, t, c, o);
      s' := Onward(s1.(locks := s1.locks[n := t], objs := s1.objs[o := Halted(s1.objs[o])]), t, [], c.(pc := Unlock(true)));
    } else {
      s' := NothingStopped(cfg, s1, t, c);
    }
  }

  lemma NothingStopped(cfg: Config, s: State, t: Tid, c: Call) returns (s': State)
    requires Inv(cfg, s) && Calling(s, t, [], c) && c.stop && c.pc == Lock && c.name !in s.locks && c.name !in s.projects
    ensures Leads(cfg, s, t, s') && Calling(s', t, [], c.(pc := Unlock(false))) && s'.projects == s.projects && s'.objs == s.objs
  {
    hide Inv, Leads, CallOk;
    var r := s.(locks := s.locks[c.name := t]);
    var mid := Onward(r, t, [], c.(pc := Lookup));
    LockedForStop(cfg, s, t, c);
    OnwardTwice(r, t, [], c.(pc := Lookup), c.(pc := Unlock(false)));
    s' := Onward(r, t, [], c.(pc := Unlock(false)));
    NothingFound(cfg, mid, t, c.(pc := Lookup));
    LeadsOn(cfg, s, t, mid, s');
  }

  lemma NothingFound(cfg: Config, s: State, t: Tid, c: Call)
    requires Inv(cfg, s) && Calling(s, t, [], c) && c.stop && c.pc == Lookup && c.name !in s.projects
    ensures Leads(cfg, s, t, Onward(s, t, [], c.(pc := Unlock(false))))
  {
    hide Inv, CanRun, Leads, CallOk;
    CanGo(cfg, s, t, [], c);
    OnwardIsAdvance(s, t, [], c, c.(pc := Unlock(false)));
    CallStep(cfg, s, t, [], c, Onward(s, t, [], c.(pc := Unlock(false))));
  }

  // ---- from start to crash to restart -------------------------------------------------------------------------

  /** The process `o` of a start that nobody stopped ends by itself: in every reachable state, with its name and
      what it depends on free, it comes back. So does the process that came back, and so on. */
  lemma ServingComesBack(cfg: Config, now: int, run: seq<Action>, n: Name, o: nat, clean: bool)
    requires Feasible(cfg, Initial(now), run)
    requires var s := Exec(cfg, Initial(now), run);
             && Serving(s, n, o) && n in cfg.autoRestart && Startable(cfg, n) && n !in s.locks
             && (|At(s.exits, n)| < 4 || At(s.exits, n)[|At(s.exits, n)| - 4] <= s.now - 60 * SECOND)
             && forall m :: InCone(cfg, n, m) && m != n ==> Free(s, m)
    ensures var s := Exec(cfg, Initial(now), run);
            Can(cfg, s, Exit(o)) && exists s', x :: ComesBack(cfg, Do(cfg, s, Exit(o)), o, clean, s', x)
  {
    var s := Exec(cfg, Initial(now), run);
    var ended := Do(cfg, s, Exit(o));
    assert Crashed(cfg, ended, o);
    RunJoin(cfg, Initial(now), run, [Exit(o)]);
    assert [Exit(o)][1..] == [] && Exec(cfg, s, [Exit(o)]) == ended;
    hide *;
    CrashComesBack(cfg, now, run + [Exit(o)], o, clean);
  }

  /** One whole life: in an empty system, a project that is restarted automatically is started, its process ends,
      and its watcher brings up another. */
  lemma StartCrashRestart(cfg: Config, now: int, n: Name, clean: bool)
    requires Startable(cfg, n) && n in cfg.autoRestart
    ensures exists run, o, s', x ::
              && Feasible(cfg, Initial(now), run) && Serving(Exec(cfg, Initial(now), run), n, o)
              && Can(cfg, Exec(cfg, Initial(now), run), Exit(o))
              && ComesBack(cfg, Do(cfg, Exec(cfg, Initial(now), run), Exit(o)), o, clean, s', x)
  {
    assert Exec(cfg, Initial(now), []) == Initial(now);
    NothingHeld(cfg, Initial(now), n);
    hide Startable, Serving, ComesBack, Leads, Do, ConeFree;
    var s, o := LaunchingStart(cfg, now, [], 0, n);
    var run := CalledRun(cfg, now, [], 0, false, n, s);
    forall m
      ensures Free(s, m)
    {
      assert After([], s.now - CRASH_WINDOW) == [];
    }
    ServingComesBack(cfg, now, run, n, o, clean);
  }
}
