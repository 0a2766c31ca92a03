/** Waiting on the supervisor's named locks: when calls can wait for each other in a circle, and when some
    call can always go on. */
module SupervisorWaits {
  import opened Timestamps
  import opened CircuitBreaker
  import opened Supervisor
  import opened SupervisorGraph
  import opened SupervisorSafety
  import opened SupervisorProgress

  ghost predicate Waits(s: State, t: Tid, u: Tid) {
    && t in s.threads && s.threads[t].calls != [] && Top(s.threads[t]).pc == Lock
    && Top(s.threads[t]).name in s.locks && s.locks[Top(s.threads[t]).name] == u
  }

  ghost predicate WaitChain(s: State, chain: seq<Tid>) {
    forall i :: 0 < i < |chain| ==> Waits(s, chain[i - 1], chain[i])
  }

  ghost predicate WaitCycle(s: State, chain: seq<Tid>) {
    |chain| > 1 && chain[0] == chain[|chain| - 1] && WaitChain(s, chain)
  }

  // ---- a circle of waits follows opening edges ---------------------------------------------

  /** A call waiting for its dependency got there over startable ones. */
  lemma StackOpens(cfg: Config, s: State, t: Tid, i: nat)
    requires Inv(cfg, s) && t in s.threads && 0 < i < |s.threads[t].calls|
    ensures s.threads[t].calls[i - 1].pc != Lock
    ensures OpenEdge(cfg, s.threads[t].calls[i - 1].name, s.threads[t].calls[i].name)
  {
    var calls := s.threads[t].calls;
    assert ThreadOk(cfg, s, t, s.threads[t]);
    assert Link(cfg, calls, i) && CallOk(cfg, s, t, calls[i - 1]);
    var n, k := calls[i - 1].name, calls[i - 1].pc.k;
    assert StartsOk(cfg, s.starts) && DepsStarted(cfg, s.starts, n, k);
    hide Inv, ThreadOk, CallOk;
    forall j | 0 <= j < k
      ensures Startable(cfg, cfg.deps[n][j])
    {
      assert cfg.deps[n][j] in s.starts;
      var x :| 0 <= x < |s.starts| && s.starts[x] == cfg.deps[n][j];
      StartedStartable(cfg, s.starts, x);
    }
    assert Opens(cfg, n, k);
  }

  /** The projects of the calls `i` to the innermost one. */
  lemma StackPath(cfg: Config, s: State, t: Tid, i: nat) returns (path: seq<Name>)
    requires Inv(cfg, s) && t in s.threads && i < |s.threads[t].calls|
    ensures OpenPath(cfg, path) && |path| == |s.threads[t].calls| - i
    ensures path[0] == s.threads[t].calls[i].name && path[|path| - 1] == Top(s.threads[t]).name
  {
    hide Inv;
    var calls := s.threads[t].calls;
    path := seq(|calls| - i, x requires 0 <= x < |calls| - i => calls[i + x].name);
    forall x | 0 < x < |path|
      ensures OpenEdge(cfg, path[x - 1], path[x])
    {
      StackOpens(cfg, s, t, i + x);
    }
  }

  lemma Holder(cfg: Config, s: State, n: Name)
    requires Inv(cfg, s) && n in s.locks
    ensures s.locks[n] in s.threads && Holds(s.threads[s.locks[n]], n)
  {
    hide ObjsOk, TableOk, StartsOk, ExitsOk, ThreadOk;
  }

  /** Whoever holds a lock another call waits for is in a call itself; and if that one waits too, opening
      edges lead from the project first waited for to the second. */
  lemma WaitsDown(cfg: Config, s: State, t: Tid, u: Tid) returns (path: seq<Name>)
    requires Inv(cfg, s) && Waits(s, t, u)
    ensures u in s.threads && s.threads[u].calls != []
    ensures OpenPath(cfg, path) && path != [] && path[0] == Top(s.threads[t]).name && path[|path| - 1] == Top(s.threads[u]).name
    ensures Top(s.threads[u]).pc == Lock ==> |path| > 1
  {
    var n := Top(s.threads[t]).name;
    Holder(cfg, s, n);
    hide Inv;
    var i :| 0 <= i < |s.threads[u].calls| && s.threads[u].calls[i].name == n && s.threads[u].calls[i].pc != Lock;
    path := StackPath(cfg, s, u, i);
  }

  lemma {:induction false} ChainPath(cfg: Config, s: State, chain: seq<Tid>, i: nat) returns (path: seq<Name>)
    requires Inv(cfg, s) && WaitCycle(s, chain) && 0 < i < |chain|
    ensures chain[0] in s.threads && s.threads[chain[0]].calls != [] && chain[i] in s.threads && s.threads[chain[i]].calls != []
    ensures OpenPath(cfg, path) && |path| > 1 && path[0] == Top(s.threads[chain[0]]).name && path[|path| - 1] == Top(s.threads[chain[i]]).name
  {
    hide Inv, OpenPath;
    assert Waits(s, chain[i - 1], chain[i]) && Waits(s, chain[1 - 1], chain[1]);
    var last := WaitsDown(cfg, s, chain[i - 1], chain[i]);
    if i < |chain| - 1 { assert Waits(s, chain[i + 1 - 1], chain[i + 1]); }
    if i == 1 {
      path := last;
    } else {
      var before := ChainPath(cfg, s, chain, i - 1);
      OpenPathJoin(cfg, before, last);
      path := before + last[1..];
    }
  }

  lemma CyclePath(cfg: Config, s: State, chain: seq<Tid>) returns (path: seq<Name>)
    requires Inv(cfg, s) && WaitCycle(s, chain)
    ensures OpenCycle(cfg, path)
  {
    hide Inv, OpenPath;
    path := ChainPath(cfg, s, chain, |chain| - 1);
  }

  /** So if no cycle of opening edges exists, no set of calls ever waits in a circle. */
  lemma NoWaitCycle(cfg: Config, now: int, run: seq<Action>, chain: seq<Tid>)
    requires (forall path :: !OpenCycle(cfg, path)) && Feasible(cfg, Initial(now), run)
    ensures !WaitCycle(Exec(cfg, Initial(now), run), chain)
  {
    var s := Exec(cfg, Initial(now), run);
    InitialOk(cfg, now);
    RunKeeps(cfg, Initial(now), run);
    hide Inv;
    if WaitCycle(s, chain) {
      var _ := CyclePath(cfg, s, chain);
    }
  }

  // ---- a cycle of opening edges makes a call wait for itself -----------------------------------

  /** Goroutine `t`, the only one in a call, is about to lock `path[i]` and holds the locks before it. */
  ghost predicate Descended(cfg: Config, s: State, t: Tid, path: seq<Name>, i: nat, below: seq<Call>) {
    && i < |path| && Inv(cfg, s) && Calling(s, t, below, Call(false, path[i], Lock, 0, 0)) && s.crashes == map[]
    && (forall m :: m in s.locks <==> m in path[..i])
    && (forall m :: m in s.locks ==> s.locks[m] == t)
    && (forall u :: u in s.threads && u != t ==> s.threads[u].calls == [])
  }

  /** Startable projects are not on the path, so their cones are free. */
  lemma OffPathFree(cfg: Config, s: State, path: seq<Name>, d: Name)
    requires OpenCycle(cfg, path) && Startable(cfg, d) && s.crashes == map[] && forall m :: m in s.locks ==> m in path
    ensures ConeFree(cfg, s, d)
  {
    forall m | InCone(cfg, d, m)
      ensures Free(s, m)
    {
      ConeDown(cfg, d, m);
      assert After([], s.now - CRASH_WINDOW) == [];
      if m in s.locks {
        var x :| 0 <= x < |path| && path[x] == m;
        CycleNotStartable(cfg, path, x);
      }
    }
  }

  lemma OpenDepsReady(cfg: Config, s: State, path: seq<Name>, n: Name, k: nat) returns (bound: nat)
    requires OpenCycle(cfg, path) && Opens(cfg, n, k) && s.crashes == map[] && forall m :: m in s.locks ==> m in path
    ensures DepsReady(cfg, s, cfg.deps[n], 0, k, bound) && FirstUp(s, cfg.deps[n], 0)
  {
    var first := cfg.deps[n][..k];
    var b := DepthBound(cfg, first);
    bound := b + 1;
    hide OpenCycle, ConeFree, Startable;
    forall j | 0 <= j < k
      ensures Startable(cfg, cfg.deps[n][j]) && Depth(cfg, cfg.deps[n][j]) < bound && ConeFree(cfg, s, cfg.deps[n][j])
    {
      assert cfg.deps[n][j] == first[j] && first[j] in first;
      OffPathFree(cfg, s, path, cfg.deps[n][j]);
    }
  }

  lemma NotUp(cfg: Config, s: State, path: seq<Name>, i: nat)
    requires Inv(cfg, s) && OpenCycle(cfg, path) && i < |path|
    ensures !Up(s, path[i])
  {
    CycleNotStartable(cfg, path, i);
    if Up(s, path[i]) {
      TableEntry(cfg, s, Call(false, path[i], Lock, 0, 0));
      var x :| 0 <= x < |s.starts| && s.starts[x] == path[i];
      StartedStartable(cfg, s.starts, x);
    }
  }

  /** One project further down. */
  lemma DescendOne(cfg: Config, s: State, t: Tid, path: seq<Name>, i: nat, below: seq<Call>) returns (s': State, below': seq<Call>)
    requires OpenCycle(cfg, path) && Descended(cfg, s, t, path, i, below) && path[i] !in s.locks && i + 1 < |path|
    ensures Leads(cfg, s, t, s') && Descended(cfg, s', t, path, i + 1, below')
  {
    var n, c := path[i], Call(false, path[i], Lock, 0, 0);
    assert OpenEdge(cfg, path[i + 1 - 1], path[i + 1]);
    var k: nat :| Opens(cfg, n, k) && cfg.deps[n][k] == path[i + 1];
    assert After([], s.now - CRASH_WINDOW) == [];
    var a := Prepared(s, t, below, c);
    Prepare(cfg, s, t, below, c);
    PreparedFacts(cfg, s, t, below, c);
    assert forall m :: m in a.locks ==> m in path;
    MoreObjs(s, a, t);
    var bound := OpenDepsReady(cfg, a, path, n, k);
    hide Inv, Leads, OpenCycle, Alone, Grown, Calling, Prepared, DepsReady, FirstUp, UpBut, Opens;
    var b := DepsCome(cfg, a, t, below, Let(s, c, Deps(0)), 0, k, bound);
    NotUp(cfg, b, path, i + 1);
    var caller := Let(s, c, Deps(0)).(pc := Deps(k));
    s' := AskFor(cfg, b, t, below, caller, k);
    below' := below + [caller.(pc := DepCall(k))];
    LeadsOn(cfg, s, t, a, b);
    LeadsOn(cfg, s, t, b, s');
    AloneOn(s, a, b, t);
    AloneOn(s, b, s', t);
    DescendedOn(cfg, s, s', t, path, i, below, below');
  }

  lemma DescendedOn(cfg: Config, s: State, s': State, t: Tid, path: seq<Name>, i: nat, below: seq<Call>, below': seq<Call>)
    requires Descended(cfg, s, t, path, i, below) && i + 1 < |path| && Alone(s, s', t) && s'.locks == s.locks[path[i] := t]
    requires Inv(cfg, s') && Calling(s', t, below', Call(false, path[i + 1], Lock, 0, 0))
    ensures Descended(cfg, s', t, path, i + 1, below')
  {
    hide Inv, Calling;
    assert path[..i + 1] == path[..i] + [path[i]];
  }

  lemma NotAtEnd(cfg: Config, path: seq<Name>, i: nat)
    requires OpenCycle(cfg, path) && i < |path| && path[i] !in path[..i]
    ensures i + 1 < |path|
  {
    assert i > 0 ==> path[..i][0] == path[0];
  }

  lemma {:induction false} Descend(cfg: Config, s: State, t: Tid, path: seq<Name>, i: nat, below: seq<Call>) returns (s': State)
    requires OpenCycle(cfg, path) && Descended(cfg, s, t, path, i, below)
    ensures Leads(cfg, s, t, s') && Waits(s', t, t) && forall u :: u in s'.threads && u != t ==> s'.threads[u].calls == []
    decreases |path| - i
  {
    if path[i] in s.locks {
      LeadsNowhere(cfg, s, t);
      s' := s;
    } else {
      NotAtEnd(cfg, path, i);
      hide Inv, Leads, Calling;
      var mid, below' := DescendOne(cfg, s, t, path, i, below);
      s' := Descend(cfg, mid, t, path, i + 1, below');
      LeadsOn(cfg, s, t, mid, s');
    }
  }

  /** From an empty manager, one start of any project on the cycle gets there. */
  lemma OpenCycleBlocks(cfg: Config, now: int, path: seq<Name>) returns (run: seq<Action>)
    requires OpenCycle(cfg, path)
    ensures Feasible(cfg, Initial(now), run)
    ensures var s := Exec(cfg, Initial(now), run);
            Waits(s, Client(0), Client(0)) && forall u :: u in s.threads && u != Client(0) ==> s.threads[u].calls == []
  {
    var t, begin := Client(0), Begin(0, false, path[0]);
    var s := Do(cfg, Initial(now), begin);
    InitialOk(cfg, now);
    StepKeeps(cfg, Initial(now), begin);
    assert s.threads[t].calls == [] + [Call(false, path[0], Lock, 0, 0)];
    assert Descended(cfg, s, t, path, 0, []);
    hide Inv, OpenCycle, Descended, Waits;
    var s' := Descend(cfg, s, t, path, 0, []);
    var n: nat :| LeadsIn(cfg, s, t, n, s');
    run := [begin] + Good(t, n);
    Prepended(cfg, Initial(now), begin, Good(t, n));
  }

  /** The exact condition: calls can come to wait for each other in a circle if and only if there is a cycle of
      opening edges. */
  lemma WaitCycleIffOpenCycle(cfg: Config, now: int)
    ensures (exists path :: OpenCycle(cfg, path))
            <==> (exists run, chain :: Feasible(cfg, Initial(now), run) && WaitCycle(Exec(cfg, Initial(now), run), chain))
  {
    if path :| OpenCycle(cfg, path) {
      var run := OpenCycleBlocks(cfg, now, path);
      assert WaitCycle(Exec(cfg, Initial(now), run), [Client(0), Client(0)]);
    } else {
      forall run, chain | Feasible(cfg, Initial(now), run)
        ensures !WaitCycle(Exec(cfg, Initial(now), run), chain)
      {
        NoWaitCycle(cfg, now, run, chain);
      }
    }
  }

  // ---- and a circle is the only way to get stuck ---------------------------------------------------

  lemma {:induction false} DistinctBound(chain: seq<Tid>, all: set<Tid>)
    requires (forall i, j :: 0 <= i < j < |chain| ==> chain[i] != chain[j]) && forall i :: 0 <= i < |chain| ==> chain[i] in all
    ensures |chain| <= |all|
  {
    if chain != [] {
      var n := |chain| - 1;
      DistinctBound(chain[..n], all - {chain[n]});
    }
  }

  /** Calls in progress, each waiting for the next, no two alike. */
  ghost predicate Queue(s: State, chain: seq<Tid>) {
    && chain != [] && WaitChain(s, chain)
    && (forall i, j :: 0 <= i < j < |chain| ==> chain[i] != chain[j])
    && forall i :: 0 <= i < |chain| ==> chain[i] in s.threads && s.threads[chain[i]].calls != []
  }

  lemma Longer(s: State, chain: seq<Tid>, v: Tid)
    requires Queue(s, chain) && Waits(s, chain[|chain| - 1], v) && (forall cycle :: !WaitCycle(s, cycle))
    requires v in s.threads && s.threads[v].calls != []
    ensures Queue(s, chain + [v]) && |chain| < |s.threads.Keys|
  {
    var longer := chain + [v];
    hide Waits;
    forall i | 0 < i < |longer|
      ensures Waits(s, longer[i - 1], longer[i])
    {
      if i < |chain| { assert Waits(s, chain[i - 1], chain[i]); }
    }
    forall x | 0 <= x < |chain|
      ensures chain[x] != v
    {
      NotBack(s, longer, x);
    }
    DistinctBound(longer, s.threads.Keys);
  }

  /** From any call in progress, following the waits without going in a circle leads to a call that can take
      its next step. */
  lemma {:induction false} SomeCallCanRun(cfg: Config, s: State, chain: seq<Tid>) returns (u: Tid)
    requires Inv(cfg, s) && Queue(s, chain) && forall cycle :: !WaitCycle(s, cycle)
    ensures CanRun(cfg, s, u) && s.threads[u].calls != []
    decreases |s.threads.Keys| - |chain|
  {
    u := chain[|chain| - 1];
    var c := Top(s.threads[u]);
    if c.pc == Lock && c.name in s.locks {
      var v := s.locks[c.name];
      hide Inv, CanRun, OpenPath;
      var _ := WaitsDown(cfg, s, u, v);
      hide WaitChain;
      Longer(s, chain, v);
      u := SomeCallCanRun(cfg, s, chain + [v]);
    } else {
      hide Inv, WaitChain;
      Unblocked(cfg, s, u);
    }
  }

  lemma NotBack(s: State, chain: seq<Tid>, x: nat)
    requires WaitChain(s, chain) && x < |chain| - 1 && forall cycle :: !WaitCycle(s, cycle)
    ensures chain[x] != chain[|chain| - 1]
  {
    var tail := chain[x..];
    forall i | 0 < i < |tail|
      ensures Waits(s, tail[i - 1], tail[i])
    {
      assert Waits(s, chain[x + i - 1], chain[x + i]);
    }
    assert !WaitCycle(s, tail);
  }

  /** Some call is in progress and none can take a step. */
  ghost predicate Deadlocked(cfg: Config, s: State) {
    (exists t :: t in s.threads && s.threads[t].calls != []) && forall u :: CanRun(cfg, s, u) ==> s.threads[u].calls == []
  }

  /** Without a cycle of opening edges no reachable state is deadlocked. */
  lemma NoDeadlock(cfg: Config, now: int, run: seq<Action>)
    requires (forall path :: !OpenCycle(cfg, path)) && Feasible(cfg, Initial(now), run)
    ensures !Deadlocked(cfg, Exec(cfg, Initial(now), run))
  {
    var s := Exec(cfg, Initial(now), run);
    InitialOk(cfg, now);
    RunKeeps(cfg, Initial(now), run);
    forall cycle
      ensures !WaitCycle(s, cycle)
    {
      NoWaitCycle(cfg, now, run, cycle);
    }
    hide Inv, CanRun;
    if t :| t in s.threads && s.threads[t].calls != [] {
      var u := SomeCallCanRun(cfg, s, [t]);
    }
  }

  /** And with one, some run ends in a deadlock: the same exact condition. */
  lemma DeadlockIffOpenCycle(cfg: Config, now: int)
    ensures (exists path :: OpenCycle(cfg, path))
            <==> (exists run :: Feasible(cfg, Initial(now), run) && Deadlocked(cfg, Exec(cfg, Initial(now), run)))
  {
    if path :| OpenCycle(cfg, path) {
      var run := OpenCycleBlocks(cfg, now, path);
      assert Deadlocked(cfg, Exec(cfg, Initial(now), run));
    } else {
      forall run | Feasible(cfg, Initial(now), run)
        ensures !Deadlocked(cfg, Exec(cfg, Initial(now), run))
      {
        NoDeadlock(cfg, now, run);
      }
    }
  }

  /** The smallest example: the start of a project that depends on itself waits for its own lock, for good. */
  lemma SelfDependencyBlocks(now: int) returns (run: seq<Action>)
    ensures var cfg := Config(map["p" := ["p"]], {});
            Feasible(cfg, Initial(now), run) && Waits(Exec(cfg, Initial(now), run), Client(0), Client(0))
  {
    var cfg := Config(map["p" := ["p"]], {});
    assert Opens(cfg, "p", 0) && OpenEdge(cfg, "p", "p");
    run := OpenCycleBlocks(cfg, now, ["p", "p"]);
  }
}
