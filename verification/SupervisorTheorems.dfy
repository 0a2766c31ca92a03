/** The promises of the project supervisor, for every run from an empty manager. */
module SupervisorTheorems {
  import opened Wrappers
  import opened Timestamps
  import opened CircuitBreaker
  import opened Supervisor
  import opened SupervisorGraph
  import opened SupervisorSafety

  // ---- one process per project ------------------------------------------------

  lemma AtMostOneLiveProcess(cfg: Config, now: int, run: seq<Action>, x: nat, y: nat)
    requires Feasible(cfg, Initial(now), run)
    requires var s := Exec(cfg, Initial(now), run);
             x < |s.objs| && y < |s.objs| && s.objs[x].name == s.objs[y].name && s.objs[x].live && s.objs[y].live
    ensures x == y
  {
    var s := Exec(cfg, Initial(now), run);
    InitialOk(cfg, now);
    RunKeeps(cfg, Initial(now), run);
    assert ObjOk(s, x) && ObjOk(s, y);
    var n := s.objs[x].name;
    if Publishing(s, n, x) { TopOk(cfg, s, s.locks[n]); }
    if Publishing(s, n, y) { TopOk(cfg, s, s.locks[n]); }
  }

  /** Outside a launch in progress the live process is the registered one. */
  lemma LiveIsRegistered(cfg: Config, now: int, run: seq<Action>, o: nat)
    requires Feasible(cfg, Initial(now), run)
    requires var s := Exec(cfg, Initial(now), run); o < |s.objs| && s.objs[o].live
    ensures var s := Exec(cfg, Initial(now), run);
            var n := s.objs[o].name;
            || (n in s.projects && s.projects[n] == o)
            || (n in s.locks && s.locks[n] in s.threads && s.threads[s.locks[n]].calls != []
                && Top(s.threads[s.locks[n]]).name == n && Top(s.threads[s.locks[n]]).pc == Publish(o))
  {
    InitialOk(cfg, now);
    RunKeeps(cfg, Initial(now), run);
    assert ObjOk(Exec(cfg, Initial(now), run), o);
  }

  // ---- restarts ---------------------------------------------------------------

  /** How often the watcher of `o` calls `StartProject` in the run. */
  function Restarts(cfg: Config, s: State, run: seq<Action>, o: nat): nat
    requires Feasible(cfg, s, run)
    decreases |run|
  {
    if run == [] then 0
    else
      var here :=
        if run[0].Run? && run[0].t == Watcher(o) && s.threads[run[0].t].calls == [] && s.threads[run[0].t].base == Watch(Backoff)
        then 1 else 0;
      here + Restarts(cfg, Do(cfg, s, run[0]), run[1..], o)
  }

  /** What a step of a call may do to the watcher's side of an object: nothing but set the stop flag. */
  lemma CallHistory(cfg: Config, s: State, t: Tid, choice: bool, o: nat)
    requires CanRun(cfg, s, t) && s.threads[t].calls != [] && o < |s.objs|
    ensures var s' := RunCall(cfg, s, t, choice);
            && o < |s'.objs| && s'.objs[o].restarts == s.objs[o].restarts && s'.objs[o].flagRead == s.objs[o].flagRead
            && (s.objs[o].manuallyStopped ==> s'.objs[o].manuallyStopped)
  {
    hide IsOpen, AskCircuit, LookUp, Return, CallDep;
    var c := Top(s.threads[t]);
    if c.pc.Launch? {
      assert RunCall(cfg, s, t, choice).objs == s.objs + if choice then [Launched(s, t, c)] else [];
    } else if !OnObj(c.pc) || c.pc.Publish? {
      assert RunCall(cfg, s, t, choice).objs == s.objs;
    }
  }

  lemma WatchHistory(cfg: Config, s: State, w: nat, choice: bool, o: nat)
    requires CanRun(cfg, s, Watcher(w)) && s.threads[Watcher(w)].calls == [] && o < |s.objs|
    ensures var s', pc := RunWatch(cfg, s, w, choice), s.threads[Watcher(w)].base.pc;
            && o < |s'.objs| && s'.objs[o].manuallyStopped == s.objs[o].manuallyStopped
            && s'.objs[o].restarts == s.objs[o].restarts + (if w == o && pc == Backoff then 1 else 0)
            && s'.objs[o].flagRead == if w == o && pc == Wait then Some(s.objs[o].manuallyStopped) else s.objs[o].flagRead
  {
    hide Recorded;
    hide IsOpen;
    hide At;
    var s', pc := RunWatch(cfg, s, w, choice), s.threads[Watcher(w)].base.pc;
    assert s'.objs == if pc.Check? then s.objs else s.objs[w := s'.objs[w]];
  }

  /** One step: restarts are counted, and a stop flag set in time stays in time. */
  lemma StepHistory(cfg: Config, s: State, a: Action, o: nat)
    requires Can(cfg, s, a) && o < |s.objs|
    ensures var s' := Do(cfg, s, a);
            && o < |s'.objs| && s'.objs[o].restarts == s.objs[o].restarts + Restarts(cfg, s, [a], o)
            && (StoppedInTime(s, o) ==> StoppedInTime(s', o))
  {
    hide RunCall;
    hide RunWatch;
    assert Restarts(cfg, Do(cfg, s, a), [a][1..], o) == 0;
    if a.Run? {
      if s.threads[a.t].calls != [] {
        CallHistory(cfg, s, a.t, a.choice, o);
      } else {
        WatchHistory(cfg, s, a.t.obj, a.choice, o);
      }
    }
  }

  lemma {:induction false} RestartsCounted(cfg: Config, s: State, run: seq<Action>, o: nat)
    requires Feasible(cfg, s, run) && o < |s.objs|
    ensures var s' := Exec(cfg, s, run);
            o < |s'.objs| && s'.objs[o].restarts == s.objs[o].restarts + Restarts(cfg, s, run, o)
    decreases |run|
  {
    if run != [] {
      StepHistory(cfg, s, run[0], o);
      RestartsCounted(cfg, Do(cfg, s, run[0]), run[1..], o);
    }
  }

  /** A project object triggers at most one restart over its whole life. */
  lemma AtMostOneRestart(cfg: Config, now: int, before: seq<Action>, after: seq<Action>, o: nat)
    requires Feasible(cfg, Initial(now), before)
    requires var s := Exec(cfg, Initial(now), before); Feasible(cfg, s, after) && o < |s.objs|
    ensures Restarts(cfg, Exec(cfg, Initial(now), before), after, o) <= 1
  {
    var s := Exec(cfg, Initial(now), before);
    InitialOk(cfg, now);
    RunKeeps(cfg, Initial(now), before);
    RestartsCounted(cfg, s, after, o);
    RunKeeps(cfg, s, after);
    assert ObjOk(Exec(cfg, s, after), o);
  }

  ghost predicate StoppedInTime(s: State, o: nat) {
    o < |s.objs| && s.objs[o].manuallyStopped && s.objs[o].flagRead != Some(false)
  }

  lemma {:induction false} StopSticks(cfg: Config, s: State, run: seq<Action>, o: nat)
    requires Feasible(cfg, s, run) && StoppedInTime(s, o)
    ensures StoppedInTime(Exec(cfg, s, run), o)
    decreases |run|
  {
    if run != [] {
      StepHistory(cfg, s, run[0], o);
      StopSticks(cfg, Do(cfg, s, run[0]), run[1..], o);
    }
  }

  /** A stop whose flag is set before the watcher reads it is never followed by a restart. */
  lemma StopBeforeReadMeansNoRestart(cfg: Config, now: int, before: seq<Action>, after: seq<Action>, o: nat)
    requires Feasible(cfg, Initial(now), before)
    requires var s := Exec(cfg, Initial(now), before);
             Feasible(cfg, s, after) && o < |s.objs| && s.objs[o].manuallyStopped && s.objs[o].flagRead == None
    ensures Restarts(cfg, Exec(cfg, Initial(now), before), after, o) == 0
  {
    var s := Exec(cfg, Initial(now), before);
    InitialOk(cfg, now);
    RunKeeps(cfg, Initial(now), before);
    RestartsCounted(cfg, s, after, o);
    StopSticks(cfg, s, after, o);
    RunKeeps(cfg, s, after);
    assert ObjOk(s, o) && ObjOk(Exec(cfg, s, after), o);
  }

  /** Crashes still get restarted: in every run, a watcher at its decision goes on to restart the project
      exactly when the manifest asks for it, the flag it read was not set, and of all exits recorded so far fewer
      than five lie within the last minute. */
  lemma RestartsExactlyWhen(cfg: Config, now: int, run: seq<Action>, o: nat, choice: bool)
    requires Feasible(cfg, Initial(now), run)
    requires var s := Exec(cfg, Initial(now), run);
             CanRun(cfg, s, Watcher(o)) && s.threads[Watcher(o)].calls == [] && s.threads[Watcher(o)].base.pc.Check?
    ensures var s := Exec(cfg, Initial(now), run);
            var p, exits := s.objs[o], At(s.exits, s.objs[o].name);
            Do(cfg, s, Run(Watcher(o), choice)).threads[Watcher(o)] ==
            Thread(Watch(if p.name in cfg.autoRestart && p.flagRead == Some(false)
                            && (|exits| < 5 || exits[|exits| - 5] <= s.now - 60 * SECOND)
                         then Backoff else WatchDone), [])
  {
    var s := Exec(cfg, Initial(now), run);
    InitialOk(cfg, now);
    RunKeeps(cfg, Initial(now), run);
    assert ThreadOk(cfg, s, Watcher(o), s.threads[Watcher(o)]) && ExitsOk(s, s.objs[o].name);
    AgreesOpen(At(s.crashes, s.objs[o].name), At(s.exits, s.objs[o].name), s.now, s.now);
    ClosedIff(At(s.exits, s.objs[o].name), s.now);
    hide Inv, Agrees, IsOpen;
  }

  /** A watcher's call of `StartProject` is at its end. If it failed, the next step marks the old object as
      failed; if not, the object stays as it is. Either way the watcher is done. */
  lemma FailedRestartShows(cfg: Config, now: int, run: seq<Action>, o: nat, ok: bool, choice: bool)
    requires Feasible(cfg, Initial(now), run)
    requires var s := Exec(cfg, Initial(now), run);
             Watcher(o) in s.threads && |s.threads[Watcher(o)].calls| == 1 && Top(s.threads[Watcher(o)]).pc == Unlock(ok)
    ensures var s, step := Exec(cfg, Initial(now), run), Run(Watcher(o), choice);
            var end := if ok then [step] else [step, step];
            && Feasible(cfg, s, end) && o < |s.objs|
            && Exec(cfg, s, end).objs == (if ok then s.objs else s.objs[o := s.objs[o].(status := Failed)])
            && Exec(cfg, s, end).threads == s.threads[Watcher(o) := Thread(Watch(WatchDone), [])]
            && Exec(cfg, s, end).locks == s.locks - {s.objs[o].name}
  {
    InitialOk(cfg, now);
    RunKeeps(cfg, Initial(now), run);
    hide Inv, Do, CanRun, Can;
    RestartEnds(cfg, Exec(cfg, Initial(now), run), o, ok, choice);
  }

  lemma RestartEnds(cfg: Config, s: State, o: nat, ok: bool, choice: bool)
    requires Inv(cfg, s) && Watcher(o) in s.threads && |s.threads[Watcher(o)].calls| == 1 && Top(s.threads[Watcher(o)]).pc == Unlock(ok)
    ensures var step := Run(Watcher(o), choice);
            var end := if ok then [step] else [step, step];
            && Feasible(cfg, s, end) && o < |s.objs|
            && Exec(cfg, s, end) == s.(objs := if ok then s.objs else s.objs[o := s.objs[o].(status := Failed)],
                                       threads := s.threads[Watcher(o) := Thread(Watch(WatchDone), [])], locks := s.locks - {s.objs[o].name})
  {
    hide Inv, Do, CanRun;
    RestartReturns(cfg, s, o, ok, choice);
    var s1 := Do(cfg, s, Run(Watcher(o), choice));
    if ok {
      OneStep(cfg, s, Run(Watcher(o), choice));
    } else {
      FailureMarked(cfg, s1, o, choice);
      TwoSteps(cfg, s, Run(Watcher(o), choice));
    }
  }

  lemma OneStep(cfg: Config, s: State, a: Action)
    requires Can(cfg, s, a)
    ensures Feasible(cfg, s, [a]) && Exec(cfg, s, [a]) == Do(cfg, s, a)
  {
    hide Can, Do;
    assert [a][1..] == [];
  }

  lemma TwoSteps(cfg: Config, s: State, a: Action)
    requires Can(cfg, s, a) && Can(cfg, Do(cfg, s, a), a)
    ensures Feasible(cfg, s, [a, a]) && Exec(cfg, s, [a, a]) == Do(cfg, Do(cfg, s, a), a)
  {
    hide Can, Do;
    assert [a, a][1..] == [a];
    OneStep(cfg, Do(cfg, s, a), a);
  }

  lemma FailureMarked(cfg: Config, s: State, o: nat, choice: bool)
    requires o < |s.objs| && Watcher(o) in s.threads && s.threads[Watcher(o)] == Thread(Watch(MarkFailed), [])
    ensures CanRun(cfg, s, Watcher(o))
    ensures Do(cfg, s, Run(Watcher(o), choice))
            == s.(objs := s.objs[o := s.objs[o].(status := Failed)], threads := s.threads[Watcher(o) := Thread(Watch(WatchDone), [])])
  {}

  lemma RestartReturns(cfg: Config, s: State, o: nat, ok: bool, choice: bool)
    requires Inv(cfg, s) && Watcher(o) in s.threads && |s.threads[Watcher(o)].calls| == 1 && Top(s.threads[Watcher(o)]).pc == Unlock(ok)
    ensures CanRun(cfg, s, Watcher(o)) && o < |s.objs|
    ensures Do(cfg, s, Run(Watcher(o), choice))
            == s.(locks := s.locks - {s.objs[o].name}, threads := s.threads[Watcher(o) := Thread(Watch(if ok then WatchDone else MarkFailed), [])])
  {
    Unblocked(cfg, s, Watcher(o));
    assert ThreadOk(cfg, s, Watcher(o), s.threads[Watcher(o)]);
    hide Inv, CallOk, StackOk;
    assert s.threads[Watcher(o)].calls[..0] == [];
  }

  // ---- dependencies -----------------------------------------------------------

  lemma {:induction false} PrecededByAll(cfg: Config, starts: seq<Name>, i: nat, path: seq<Name>)
    requires StartsOk(cfg, starts) && i < |starts| && DependencyPath(cfg, path) && |path| > 1 && path[0] == starts[i]
    ensures path[|path| - 1] in starts[..i]
    decreases |path|
  {
    var d := path[1];
    var k :| 0 <= k < |cfg.deps[path[0]]| && cfg.deps[path[0]][k] == d;
    assert d in starts[..i];
    if |path| > 2 {
      var j :| 0 <= j < i && starts[j] == d;
      PrecededByAll(cfg, starts, j, path[1..]);
      assert starts[..j] <= starts[..i];
    }
  }

  /** Every start comes after a start of each transitive dependency. */
  lemma StartsFollowDependencies(cfg: Config, now: int, run: seq<Action>, i: nat, path: seq<Name>)
    requires Feasible(cfg, Initial(now), run)
    requires DependencyPath(cfg, path) && |path| > 1
    requires var starts := Exec(cfg, Initial(now), run).starts; i < |starts| && starts[i] == path[0]
    ensures path[|path| - 1] in Exec(cfg, Initial(now), run).starts[..i]
  {
    InitialOk(cfg, now);
    RunKeeps(cfg, Initial(now), run);
    PrecededByAll(cfg, Exec(cfg, Initial(now), run).starts, i, path);
  }

  /** So a project on a dependency cycle is never started at all. */
  lemma CyclicNeverStarts(cfg: Config, now: int, run: seq<Action>, path: seq<Name>)
    requires Feasible(cfg, Initial(now), run)
    requires DependencyPath(cfg, path) && |path| > 1 && path[0] == path[|path| - 1]
    ensures path[0] !in Exec(cfg, Initial(now), run).starts
  {
    var starts := Exec(cfg, Initial(now), run).starts;
    InitialOk(cfg, now);
    RunKeeps(cfg, Initial(now), run);
    NoFirstStart(cfg, starts, path, |starts|);
    assert starts[..|starts|] == starts;
  }

  lemma {:induction false} NoFirstStart(cfg: Config, starts: seq<Name>, path: seq<Name>, n: nat)
    requires StartsOk(cfg, starts) && n <= |starts|
    requires DependencyPath(cfg, path) && |path| > 1 && path[0] == path[|path| - 1]
    ensures path[0] !in starts[..n]
  {
    if n > 0 {
      NoFirstStart(cfg, starts, path, n - 1);
      assert starts[..n] == starts[..n - 1] + [starts[n - 1]];
      if starts[n - 1] == path[0] {
        PrecededByAll(cfg, starts, n - 1, path);
      }
    }
  }

  // ---- the circuit breaker over a chain of auto-restarts -----------------------

  /** Each object of the chain was launched by the watcher of the one before. */
  ghost predicate RestartChain(s: State, chain: seq<nat>) {
    && (forall i :: 0 <= i < |chain| ==> chain[i] < |s.objs|)
    && forall i :: 0 < i < |chain| ==> s.objs[chain[i]].parent == Some(chain[i - 1])
  }

  lemma {:induction false} ChainExits(s: State, chain: seq<nat>, i: nat, j: nat)
    requires ObjsOk(s) && RestartChain(s, chain) && i < j < |chain|
    ensures s.objs[chain[i]].name == s.objs[chain[j]].name
    ensures s.objs[chain[i]].exitIndex.Some? && s.objs[chain[i]].exitIndex.value < s.objs[chain[j]].seen
    ensures j < |chain| - 1 ==> s.objs[chain[j]].exitIndex.Some? && s.objs[chain[i]].exitIndex.value < s.objs[chain[j]].exitIndex.value
    decreases j - i
  {
    assert ObjOk(s, chain[i]) && ObjOk(s, chain[j]) && ObjOk(s, chain[i + 1]);
    assert s.objs[chain[i + 1]].parent == Some(chain[i]);
    if j < |chain| - 1 {
      assert ObjOk(s, chain[j + 1]);
      assert s.objs[chain[j + 1]].parent == Some(chain[j]);
    }
    if i + 1 < j {
      ChainExits(s, chain, i + 1, j);
    }
  }

  /** Exits recorded since `first`, all seen by a breaker that stayed closed, span the window. */
  lemma ClosedMeansOld(exits: seq<int>, idx: seq<nat>, first: int, admitted: int)
    requires Sorted(exits) && |idx| >= 5 && !IsOpen(exits, admitted)
    requires forall i :: 0 <= i < |idx| ==> idx[i] < |exits|
    requires forall i, j :: 0 <= i < j < |idx| ==> idx[i] < idx[j]
    requires first <= exits[idx[0]]
    ensures admitted - first >= 60 * SECOND
  {
    if admitted - first < CRASH_WINDOW {
      forall i | 0 <= i < |idx|
        ensures admitted - CRASH_WINDOW < exits[idx[i]]
      {
        assert i > 0 ==> idx[0] < idx[i];
      }
      AfterCounts(exits, idx, admitted - CRASH_WINDOW);
    }
  }

  /** Six starts of one chain of auto-restarts take at least the crash window: at most
      five of them fit in any shorter span. */
  lemma AutoRestartsAreSpaced(cfg: Config, now: int, run: seq<Action>, chain: seq<nat>)
    requires Feasible(cfg, Initial(now), run)
    requires RestartChain(Exec(cfg, Initial(now), run), chain) && |chain| == 6
    ensures var s := Exec(cfg, Initial(now), run);
            s.objs[chain[5]].startedAt - s.objs[chain[0]].startedAt >= 60 * SECOND
  {
    var s := Exec(cfg, Initial(now), run);
    InitialOk(cfg, now);
    RunKeeps(cfg, Initial(now), run);
    ChainInState(cfg, s, chain);
  }

  lemma ChainInState(cfg: Config, s: State, chain: seq<nat>)
    requires ObjsOk(s) && (forall n :: ExitsOk(s, n)) && RestartChain(s, chain) && |chain| == 6
    ensures s.objs[chain[5]].startedAt - s.objs[chain[0]].startedAt >= CRASH_WINDOW
  {
    var first, last := s.objs[chain[0]], s.objs[chain[5]];
    ChainSpaced(s, chain);
    assert ObjOk(s, chain[5]) && ObjOk(s, chain[0]) && ExitsOk(s, last.name);
    var idx := seq(5, i requires 0 <= i < 5 => s.objs[chain[i]].exitIndex.value);
    ClosedMeansOld(At(s.exits, last.name)[..last.seen], idx, first.startedAt, last.admittedAt);
  }

  lemma ChainSpaced(s: State, chain: seq<nat>)
    requires ObjsOk(s) && RestartChain(s, chain) && |chain| == 6
    ensures forall i :: 0 <= i < 5 ==> s.objs[chain[i]].exitIndex.Some? && s.objs[chain[i]].exitIndex.value < s.objs[chain[5]].seen
    ensures forall i, j :: 0 <= i < j < 5 ==> s.objs[chain[i]].exitIndex.value < s.objs[chain[j]].exitIndex.value
    ensures s.objs[chain[0]].name == s.objs[chain[5]].name
  {
    forall i | 0 <= i < 5
      ensures s.objs[chain[i]].exitIndex.Some? && s.objs[chain[i]].exitIndex.value < s.objs[chain[5]].seen
    {
      ChainExits(s, chain, i, 5);
    }
    forall i, j | 0 <= i < j < 5
      ensures s.objs[chain[i]].exitIndex.value < s.objs[chain[j]].exitIndex.value
    {
      ChainExits(s, chain, i, j);
    }
    ChainExits(s, chain, 0, 5);
  }
}
