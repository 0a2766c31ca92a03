/** Recursive `StartProject` calls end: every goroutine of the supervisor has a bounded
    number of steps of its own, whatever the others do. */
module SupervisorTermination {
  import opened Timestamps
  import opened CircuitBreaker
  import opened Supervisor
  import opened SupervisorSafety

  /** The most steps a call of `StartProject` on `n` takes, its dependencies included, while its goroutine
      holds the locks `held`: a call for one of those never gets past its lock. */
  ghost function Work(cfg: Config, held: set<Name>, n: Name): nat
    decreases cfg.deps.Keys - held, 1, 0
  {
    if n in held then 0 else 11 + if n in cfg.deps then DepWork(cfg, held + {n}, n, 0) else 0
  }

  /** The same for the dependencies of `n` from the `k`-th on. */
  ghost function DepWork(cfg: Config, held: set<Name>, n: Name, k: nat): nat
    decreases cfg.deps.Keys - held, 2, if n in cfg.deps then |cfg.deps[n]| - k else 0
  {
    if n !in cfg.deps || k >= |cfg.deps[n]| then 0
    else 2 + Work(cfg, held, cfg.deps[n][k]) + DepWork(cfg, held, n, k + 1)
  }

  /** Steps left in one call, on top of calls for `below`, not counting the calls above it. */
  ghost function Left(cfg: Config, below: set<Name>, c: Call): nat {
    var held := below + {c.name};
    match c.pc
    case Lock => Work(cfg, below, c.name)
    case Circuit => 10 + DepWork(cfg, held, c.name, 0)
    case Lookup => 9 + DepWork(cfg, held, c.name, 0)
    case Flag(_) => 8 + DepWork(cfg, held, c.name, 0)
    case Kill(_) => 7 + DepWork(cfg, held, c.name, 0)
    case Mark(_) => 6 + DepWork(cfg, held, c.name, 0)
    case ReadConfig => 5 + DepWork(cfg, held, c.name, 0)
    case Deps(k) => 4 + DepWork(cfg, held, c.name, k)
    case DepCheck(k, _) => 3 + DepWork(cfg, held, c.name, k)
    case DepCall(k) => 4 + DepWork(cfg, held, c.name, k + 1)
    case Launch => 3
    case Publish(_) => 2
    case Unlock(_) => 1
  }

  function Named(calls: seq<Call>): set<Name> {
    set c | c in calls :: c.name
  }

  /** The projects of the calls below the innermost one. */
  function Under(th: Thread): set<Name>
    requires th.calls != []
  {
    Named(th.calls[..|th.calls| - 1])
  }

  ghost function StackLeft(cfg: Config, calls: seq<Call>): nat {
    if calls == [] then 0
    else StackLeft(cfg, calls[..|calls| - 1]) + Left(cfg, Named(calls[..|calls| - 1]), calls[|calls| - 1])
  }

  ghost function WatchLeft(pc: WatchPc, restart: nat): nat {
    match pc
    case Wait => 5 + restart
    case Record(_) => 4 + restart
    case Check(_) => 3 + restart
    case Backoff => 2 + restart
    case Restart => 1
    case MarkFailed => 1
    case WatchDone => 0
  }

  /** Steps left to thread `t` on its own account. */
  ghost function ThreadLeft(cfg: Config, s: State, t: Tid): nat
    requires t in s.threads
  {
    var th := s.threads[t];
    var restart := if t.Watcher? && t.obj < |s.objs| then Work(cfg, {}, s.objs[t.obj].name) else 0;
    StackLeft(cfg, th.calls) + if th.base.Watch? then WatchLeft(th.base.pc, restart) else 0
  }

  lemma AdvanceLess(cfg: Config, s: State, s': State, t: Tid, c: Call)
    requires t in s.threads && s.threads[t].calls != []
    requires t in s'.threads && s'.threads[t] == Advance(s, t, c).threads[t]
    requires Left(cfg, Under(s.threads[t]), c) < Left(cfg, Under(s.threads[t]), Top(s.threads[t]))
    requires t.Watcher? ==> t.obj < |s.objs| && t.obj < |s'.objs| && s'.objs[t.obj].name == s.objs[t.obj].name
    ensures ThreadLeft(cfg, s', t) < ThreadLeft(cfg, s, t)
  {
    var calls, calls' := s.threads[t].calls, s'.threads[t].calls;
    assert calls'[..|calls| - 1] == calls[..|calls| - 1];
  }

  lemma StackAppend(cfg: Config, calls: seq<Call>, c: Call)
    ensures StackLeft(cfg, calls + [c]) == StackLeft(cfg, calls) + Left(cfg, Named(calls), c)
  {
    assert (calls + [c])[..|calls|] == calls;
  }

  lemma PushedLess(cfg: Config, th: Thread, k: nat)
    requires th.calls != [] && AtDep(cfg, Top(th), k)
    ensures StackLeft(cfg, CallDep(th, k, cfg.deps[Top(th).name][k]).calls) < StackLeft(cfg, th.calls)
  {
    hide StackLeft, Work;
    var c := Top(th);
    var below, waiting := th.calls[..|th.calls| - 1], c.(pc := DepCall(k));
    var made := Call(false, cfg.deps[c.name][k], Lock, 0, 0);
    StackAppend(cfg, below, waiting);
    StackAppend(cfg, below + [waiting], made);
    StackAppend(cfg, below, c);
    assert th.calls == below + [c];
    assert Named(below + [waiting]) == Named(below) + {c.name};
    assert CallDep(th, k, cfg.deps[c.name][k]).calls == below + [waiting] + [made];
  }

  lemma PushLess(cfg: Config, s: State, t: Tid, k: nat)
    requires t in s.threads && s.threads[t].calls != [] && AtDep(cfg, Top(s.threads[t]), k)
    ensures ThreadLeft(cfg, Pushed(cfg, s, t, k), t) < ThreadLeft(cfg, s, t)
  {
    hide StackLeft;
    PushedLess(cfg, s.threads[t], k);
  }

  lemma PoppedLess(cfg: Config, th: Thread, ok: bool)
    requires th.calls != [] && Top(th).pc == Unlock(ok)
    ensures StackLeft(cfg, Return(th, ok).calls) < StackLeft(cfg, th.calls)
  {
    hide DepWork, Work, StackLeft, Named;
    var calls, calls' := th.calls, Return(th, ok).calls;
    var last := |calls| - 1;
    assert calls == calls[..last] + [calls[last]];
    StackAppend(cfg, calls[..last], calls[last]);
    if last > 0 {
      var below := calls[..last - 1];
      assert calls[..last] == below + [calls[last - 1]];
      StackAppend(cfg, below, calls[last - 1]);
      assert calls' == below + [calls'[last - 1]];
      StackAppend(cfg, below, calls'[last - 1]);
      assert Left(cfg, Named(below), calls'[last - 1]) <= Left(cfg, Named(below), calls[last - 1]);
    }
    hide Left;
  }

  lemma ReturnLess(cfg: Config, s: State, t: Tid, ok: bool)
    requires t in s.threads && s.threads[t].calls != [] && Top(s.threads[t]).pc == Unlock(ok)
    ensures ThreadLeft(cfg, ReturnedState(s, t, ok), t) < ThreadLeft(cfg, s, t)
  {
    hide StackLeft;
    hide Work;
    PoppedLess(cfg, s.threads[t], ok);
  }

  /** Working through the dependencies either calls for one or moves on past it. */
  lemma DepNext(cfg: Config, s: State, t: Tid, choice: bool)
    requires CanRun(cfg, s, t) && s.threads[t].calls != [] && OnDep(Top(s.threads[t]).pc)
    ensures var s', c := RunCall(cfg, s, t, choice), Top(s.threads[t]);
            var next := if c.pc.DepCheck? then Deps(c.pc.k + 1)
                        else if c.pc.k == |cfg.deps[c.name]| then Launch
                        else DepCheck(c.pc.k, if cfg.deps[c.name][c.pc.k] in s.projects then s.projects[cfg.deps[c.name][c.pc.k]] else 0);
            || (c.pc.k < |cfg.deps[c.name]| && s' == Pushed(cfg, s, t, c.pc.k))
            || s' == Advance(s, t, c.(pc := next))
  {
    hide Launched, Return, AskCircuit, LookUp, CallDep;
  }

  /** Whether past a dependency, to the look at it, or to the launch. */
  lemma NextLess(cfg: Config, below: set<Name>, c: Call)
    requires OnDep(c.pc) && c.name in cfg.deps && c.pc.k <= |cfg.deps[c.name]| && (!c.pc.Deps? ==> c.pc.k < |cfg.deps[c.name]|)
    ensures c.pc.DepCheck? ==> Left(cfg, below, c.(pc := Deps(c.pc.k + 1))) < Left(cfg, below, c)
    ensures c.pc.Deps? ==> Left(cfg, below, c.(pc := Launch)) < Left(cfg, below, c)
    ensures c.pc.Deps? ==> forall d :: Left(cfg, below, c.(pc := DepCheck(c.pc.k, d))) < Left(cfg, below, c)
  {
    hide Work;
  }

  lemma DepLess(cfg: Config, s: State, t: Tid, choice: bool)
    requires CanRun(cfg, s, t) && s.threads[t].calls != []
    requires OnDep(Top(s.threads[t]).pc)
    ensures var s' := RunCall(cfg, s, t, choice);
            t in s'.threads && ThreadLeft(cfg, s', t) < ThreadLeft(cfg, s, t)
  {
    hide RunCall, ThreadLeft, Work, StackLeft, Left, Under;
    DepNext(cfg, s, t, choice);
    var c := Top(s.threads[t]);
    NextLess(cfg, Under(s.threads[t]), c);
    var s' := RunCall(cfg, s, t, choice);
    if c.pc.k < |cfg.deps[c.name]| && s' == Pushed(cfg, s, t, c.pc.k) {
      PushLess(cfg, s, t, c.pc.k);
    } else {
      AdvanceLess(cfg, s, s', t, Top(s'.threads[t]));
    }
  }

  /** A step of a call brings its thread closer to the end. */
  lemma CallLess(cfg: Config, s: State, t: Tid, choice: bool)
    requires CanRun(cfg, s, t) && s.threads[t].calls != [] && CallOk(cfg, s, t, Top(s.threads[t])) && Unheld(s.threads[t])
    ensures var s' := RunCall(cfg, s, t, choice);
            t in s'.threads && ThreadLeft(cfg, s', t) < ThreadLeft(cfg, s, t)
  {
    hide ThreadLeft;
    hide DepWork;
    var c := Top(s.threads[t]);
    if c.pc.Unlock? {
      ReturnLess(cfg, s, t, c.pc.ok);
    } else if OnDep(c.pc) {
      DepLess(cfg, s, t, choice);
    } else {
      PlainLess(cfg, s, t, choice);
    }
  }

  /** The innermost call is not about to take a lock its own goroutine holds. */
  ghost predicate Unheld(th: Thread)
    requires th.calls != []
  {
    Top(th).pc == Lock ==> Top(th).name !in Under(th)
  }

  /** A call that could take its lock is none for a project further down its own stack. */
  lemma LockUnheld(cfg: Config, s: State, t: Tid)
    requires Inv(cfg, s) && CanRun(cfg, s, t) && s.threads[t].calls != []
    ensures Unheld(s.threads[t])
  {
    var th := s.threads[t];
    assert ThreadOk(cfg, s, t, th);
    hide Inv;
    BelowLocked(cfg, s, t, th);
    hide ThreadOk;
  }

  /** Callers hold their locks. */
  lemma BelowLocked(cfg: Config, s: State, t: Tid, th: Thread)
    requires ThreadOk(cfg, s, t, th) && th.calls != []
    ensures forall c :: c in th.calls[..|th.calls| - 1] ==> c.name in s.locks
  {
    hide WatchOk, PcOk, LiveOk, DepsOk, Admitted;
    forall i | 0 <= i < |th.calls| - 1
      ensures th.calls[i].name in s.locks
    {
      assert Link(cfg, th.calls, i + 1) && CallOk(cfg, s, t, th.calls[i]);
    }
  }

  ghost predicate Plain(t: Tid, pc: Pc) {
    !pc.Unlock? && !OnDep(pc) && (pc.Publish? ==> Watcher(pc.obj) != t)
  }

  /** The innermost call is replaced by one with fewer steps left. */
  ghost predicate Drops(cfg: Config, s: State, s': State, t: Tid)
    requires t in s.threads && s.threads[t].calls != []
  {
    && t in s'.threads && s'.threads[t].calls != []
    && s'.threads[t] == Advance(s, t, Top(s'.threads[t])).threads[t]
    && Left(cfg, Under(s.threads[t]), Top(s'.threads[t])) < Left(cfg, Under(s.threads[t]), Top(s.threads[t]))
  }

  lemma StopDrops(cfg: Config, s: State, t: Tid, choice: bool)
    requires CanRun(cfg, s, t) && s.threads[t].calls != [] && Plain(t, Top(s.threads[t]).pc)
    requires OnObj(Top(s.threads[t]).pc)
    ensures Drops(cfg, s, RunCall(cfg, s, t, choice), t)
  {
    hide DepWork;
    hide AskCircuit;
    hide LookUp;
  }

  lemma LookupDrops(cfg: Config, s: State, t: Tid, choice: bool)
    requires CanRun(cfg, s, t) && s.threads[t].calls != []
    requires Top(s.threads[t]).pc.Lookup? || Top(s.threads[t]).pc.Launch?
    ensures Drops(cfg, s, RunCall(cfg, s, t, choice), t)
  {
    hide DepWork;
    hide IsOpen;
    hide Launched;
  }

  lemma StartDrops(cfg: Config, s: State, t: Tid, choice: bool)
    requires CanRun(cfg, s, t) && s.threads[t].calls != [] && Plain(t, Top(s.threads[t]).pc)
    requires !OnObj(Top(s.threads[t]).pc) && !Top(s.threads[t]).pc.Lookup? && !Top(s.threads[t]).pc.Launch?
    requires Unheld(s.threads[t])
    ensures Drops(cfg, s, RunCall(cfg, s, t, choice), t)
  {
    hide At, Admitted, LookUp, Launched, CallDep, Return, DepWork, IsOpen;
    NoManifestNoWork(cfg, Under(s.threads[t]) + {Top(s.threads[t]).name}, Top(s.threads[t]).name);
  }

  lemma NoManifestNoWork(cfg: Config, held: set<Name>, n: Name)
    ensures n !in cfg.deps ==> DepWork(cfg, held, n, 0) == 0
  {}

  lemma PlainLess(cfg: Config, s: State, t: Tid, choice: bool)
    requires CanRun(cfg, s, t) && s.threads[t].calls != [] && Plain(t, Top(s.threads[t]).pc) && Unheld(s.threads[t])
    ensures var s' := RunCall(cfg, s, t, choice);
            t in s'.threads && ThreadLeft(cfg, s', t) < ThreadLeft(cfg, s, t)
  {
    hide ThreadLeft;
    hide RunCall;
    var s' := RunCall(cfg, s, t, choice);
    CallNamesKept(cfg, s, t, choice);
    if OnObj(Top(s.threads[t]).pc) {
      StopDrops(cfg, s, t, choice);
    } else if Top(s.threads[t]).pc.Lookup? || Top(s.threads[t]).pc.Launch? {
      LookupDrops(cfg, s, t, choice);
    } else {
      StartDrops(cfg, s, t, choice);
    }
    AdvanceLess(cfg, s, s', t, Top(s'.threads[t]));
  }

  /** Between calls a watcher goes down its list. */
  lemma WatchMoves(cfg: Config, s: State, o: nat, choice: bool, restart: nat)
    requires CanRun(cfg, s, Watcher(o)) && s.threads[Watcher(o)].calls == [] && !s.threads[Watcher(o)].base.pc.Backoff?
    ensures var s', pc := RunWatch(cfg, s, o, choice), s.threads[Watcher(o)].base.pc;
            && Watcher(o) in s'.threads && s'.threads[Watcher(o)].calls == [] && s'.threads[Watcher(o)].base.Watch?
            && WatchLeft(s'.threads[Watcher(o)].base.pc, restart) < WatchLeft(pc, restart)
  {
    hide Recorded, IsOpen, At;
  }

  /** And at its end it starts the project, once. */
  lemma WatchRestarts(cfg: Config, s: State, o: nat, choice: bool)
    requires CanRun(cfg, s, Watcher(o)) && s.threads[Watcher(o)].calls == [] && s.threads[Watcher(o)].base.pc.Backoff?
    ensures var s' := RunWatch(cfg, s, o, choice);
            Watcher(o) in s'.threads && s'.threads[Watcher(o)] == Thread(Watch(Restart), [Call(false, s.objs[o].name, Lock, 0, 0)])
  {}

  lemma WatchLess(cfg: Config, s: State, o: nat, choice: bool)
    requires CanRun(cfg, s, Watcher(o)) && s.threads[Watcher(o)].calls == []
    ensures var s' := RunWatch(cfg, s, o, choice);
            Watcher(o) in s'.threads && ThreadLeft(cfg, s', Watcher(o)) < ThreadLeft(cfg, s, Watcher(o))
  {
    WatchNamesKept(cfg, s, o, choice);
    var made := Call(false, s.objs[o].name, Lock, 0, 0);
    if s.threads[Watcher(o)].base.pc.Backoff? {
      WatchRestarts(cfg, s, o, choice);
      StackAppend(cfg, [], made);
      assert [] + [made] == [made] && Named([]) == {};
    } else {
      WatchMoves(cfg, s, o, choice, Work(cfg, {}, s.objs[o].name));
    }
    hide RunWatch, Work, DepWork;
  }

  lemma OtherThreadKept(cfg: Config, s: State, u: Tid, choice: bool, t: Tid)
    requires CanRun(cfg, s, u) && s.threads[u].calls != [] && CallOk(cfg, s, u, Top(s.threads[u]))
    requires t in s.threads && t != u
    ensures var s' := RunCall(cfg, s, u, choice); t in s'.threads && s'.threads[t] == s.threads[t]
  {
    hide AskCircuit;
    hide LookUp;
    hide Launched;
    hide IsOpen;
    hide Return;
    hide CallDep;
    var s', c := RunCall(cfg, s, u, choice), Top(s.threads[u]);
    if c.pc.Publish? {
      assert s'.threads[t] == s.threads[t];
    } else {
      assert s'.threads == s.threads[u := s'.threads[u]];
    }
  }

  lemma NamesKept(cfg: Config, s: State, a: Action)
    requires Can(cfg, s, a)
    ensures var s' := Do(cfg, s, a);
            |s.objs| <= |s'.objs| && forall o :: 0 <= o < |s.objs| ==> s'.objs[o].name == s.objs[o].name
  {
    hide RunCall, RunWatch;
    if a.Run? {
      if s.threads[a.t].calls != [] {
        CallNamesKept(cfg, s, a.t, a.choice);
      } else {
        WatchNamesKept(cfg, s, a.t.obj, a.choice);
      }
    }
  }

  lemma WatchNamesKept(cfg: Config, s: State, o: nat, choice: bool)
    requires CanRun(cfg, s, Watcher(o)) && s.threads[Watcher(o)].calls == []
    ensures var s' := RunWatch(cfg, s, o, choice);
            |s.objs| == |s'.objs| && forall x :: 0 <= x < |s.objs| ==> s'.objs[x].name == s.objs[x].name
  {
    hide Recorded, IsOpen, At;
    var s', pc := RunWatch(cfg, s, o, choice), s.threads[Watcher(o)].base.pc;
    assert s'.objs == if pc.Check? then s.objs else s.objs[o := s'.objs[o]];
  }

  lemma CallNamesKept(cfg: Config, s: State, t: Tid, choice: bool)
    requires CanRun(cfg, s, t) && s.threads[t].calls != []
    ensures var s' := RunCall(cfg, s, t, choice);
            |s.objs| <= |s'.objs| && forall o :: 0 <= o < |s.objs| ==> s'.objs[o].name == s.objs[o].name
  {
    hide Return;
    hide IsOpen;
    hide CallDep;
    var c, s' := Top(s.threads[t]), RunCall(cfg, s, t, choice);
    if c.pc.Launch? {
      assert s'.objs == s.objs + if choice then [Launched(s, t, c)] else [];
    } else if !OnObj(c.pc) || c.pc.Publish? {
      assert s'.objs == s.objs;
    }
  }

  /** Other threads neither gain nor lose steps. */
  lemma OthersSame(cfg: Config, s: State, a: Action, t: Tid)
    requires Inv(cfg, s) && Can(cfg, s, a) && t in s.threads && !(a.Run? && a.t == t)
    ensures var s' := Do(cfg, s, a); t in s'.threads && ThreadLeft(cfg, s', t) == ThreadLeft(cfg, s, t)
  {
    WatchersExist(cfg, s);
    if a.Run? && s.threads[a.t].calls != [] { TopOk(cfg, s, a.t); }
    OtherKept(cfg, s, a, t);
    NamesKept(cfg, s, a);
    hide Inv;
    hide Do;
  }

  lemma OtherKept(cfg: Config, s: State, a: Action, t: Tid)
    requires Can(cfg, s, a) && t in s.threads && !(a.Run? && a.t == t)
    requires a.Run? && s.threads[a.t].calls != [] ==> CallOk(cfg, s, a.t, Top(s.threads[a.t]))
    ensures var s' := Do(cfg, s, a); t in s'.threads && s'.threads[t] == s.threads[t]
  {
    hide RunCall;
    hide CallOk;
    if a.Run? && s.threads[a.t].calls != [] {
      OtherThreadKept(cfg, s, a.t, a.choice, t);
    }
  }

  /** How many steps of the run are taken by `t`. */
  function OwnSteps(run: seq<Action>, t: Tid): nat {
    if run == [] then 0
    else OwnSteps(run[1..], t) + if run[0].Run? && run[0].t == t then 1 else 0
  }

  /** A step of its own brings a thread closer to the end; no other step takes it further from it. */
  lemma StepBounded(cfg: Config, s: State, a: Action, t: Tid)
    requires Inv(cfg, s) && Can(cfg, s, a) && t in s.threads
    ensures var s' := Do(cfg, s, a);
            t in s'.threads && ThreadLeft(cfg, s', t) + (if a.Run? && a.t == t then 1 else 0) <= ThreadLeft(cfg, s, t)
  {
    if a.Run? && a.t == t {
      OwnStepBounded(cfg, s, t, a.choice);
    } else {
      OthersSame(cfg, s, a, t);
    }
    hide Inv, Do, ThreadLeft;
  }

  lemma OwnStepBounded(cfg: Config, s: State, t: Tid, choice: bool)
    requires Inv(cfg, s) && CanRun(cfg, s, t)
    ensures var s' := Do(cfg, s, Run(t, choice)); t in s'.threads && ThreadLeft(cfg, s', t) < ThreadLeft(cfg, s, t)
  {
    hide Inv, ThreadLeft, RunCall, RunWatch, CallOk, Unheld;
    if s.threads[t].calls != [] {
      TopOk(cfg, s, t);
      LockUnheld(cfg, s, t);
      CallLess(cfg, s, t, choice);
    } else {
      WatchLess(cfg, s, t.obj, choice);
    }
  }

  lemma {:induction false} OwnStepsBounded(cfg: Config, s: State, run: seq<Action>, t: Tid)
    requires Inv(cfg, s) && Feasible(cfg, s, run) && t in s.threads
    ensures var s' := Exec(cfg, s, run);
            t in s'.threads && OwnSteps(run, t) + ThreadLeft(cfg, s', t) <= ThreadLeft(cfg, s, t)
    decreases |run|
  {
    hide Inv, Do, Can, ThreadLeft;
    if run != [] {
      StepBounded(cfg, s, run[0], t);
      StepKeeps(cfg, s, run[0]);
      OwnStepsBounded(cfg, Do(cfg, s, run[0]), run[1..], t);
    }
  }

  /** A call of `StartProject` or `StopProject`, with every dependency it starts on the way, takes at most
      `Work` steps of its own in any run, however it is interleaved and whatever the dependency graph. */
  lemma CallsTerminate(cfg: Config, now: int, before: seq<Action>, k: nat, stop: bool, name: Name, after: seq<Action>)
    requires Feasible(cfg, Initial(now), before)
    requires var s := Exec(cfg, Initial(now), before);
             Can(cfg, s, Begin(k, stop, name)) && Feasible(cfg, Do(cfg, s, Begin(k, stop, name)), after)
    ensures OwnSteps(after, Client(k)) <= Work(cfg, {}, name)
  {
    var s := Exec(cfg, Initial(now), before);
    InitialOk(cfg, now);
    RunKeeps(cfg, Initial(now), before);
    StepKeeps(cfg, s, Begin(k, stop, name));
    StackAppend(cfg, [], Call(stop, name, Lock, 0, 0));
    assert Named([]) == {};
    OwnStepsBounded(cfg, Do(cfg, s, Begin(k, stop, name)), after, Client(k));
  }
}
