/** What the project supervisor achieves when nothing else interferes: a start brings up its project and
    everything it depends on, and a crashed project comes back. */
module SupervisorProgress {
  import opened Wrappers
  import opened Timestamps
  import opened CircuitBreaker
  import opened Supervisor
  import opened SupervisorGraph
  import opened SupervisorSafety

  // ---- runs of one goroutine ------------------------------------------------------------

  /** `t` takes its next `n` steps, each with the good outcome. */
  function Good(t: Tid, n: nat): seq<Action> {
    if n == 0 then [] else [Run(t, true)] + Good(t, n - 1)
  }

  ghost predicate LeadsIn(cfg: Config, s: State, t: Tid, n: nat, s': State) {
    Feasible(cfg, s, Good(t, n)) && Exec(cfg, s, Good(t, n)) == s'
  }

  /** Some number of good steps of `t` leads from `s` to `s'`. */
  ghost predicate Leads(cfg: Config, s: State, t: Tid, s': State) {
    exists n: nat :: LeadsIn(cfg, s, t, n, s')
  }

  /** An action in front of a run. */
  lemma Prepended(cfg: Config, s: State, a: Action, run: seq<Action>)
    requires Can(cfg, s, a) && Feasible(cfg, Do(cfg, s, a), run)
    ensures Feasible(cfg, s, [a] + run) && Exec(cfg, s, [a] + run) == Exec(cfg, Do(cfg, s, a), run)
  {
    hide Can, Do;
    assert ([a] + run)[1..] == run;
  }

  lemma LeadsNowhere(cfg: Config, s: State, t: Tid)
    ensures Leads(cfg, s, t, s)
  {
    assert LeadsIn(cfg, s, t, 0, s);
  }

  lemma {:induction false} LeadsInOn(cfg: Config, s: State, t: Tid, a: nat, b: nat, mid: State, s': State)
    requires LeadsIn(cfg, s, t, a, mid) && LeadsIn(cfg, mid, t, b, s')
    ensures LeadsIn(cfg, s, t, a + b, s')
    decreases a
  {
    hide Can, Do;
    if a > 0 {
      assert Good(t, a)[1..] == Good(t, a - 1);
      LeadsInOn(cfg, Do(cfg, s, Run(t, true)), t, a - 1, b, mid, s');
      Prepended(cfg, s, Run(t, true), Good(t, a - 1 + b));
    }
  }

  lemma LeadsOn(cfg: Config, s: State, t: Tid, mid: State, s': State)
    requires Leads(cfg, s, t, mid) && Leads(cfg, mid, t, s')
    ensures Leads(cfg, s, t, s')
  {
    hide LeadsIn;
    var a: nat :| LeadsIn(cfg, s, t, a, mid);
    var b: nat :| LeadsIn(cfg, mid, t, b, s');
    LeadsInOn(cfg, s, t, a, b, mid, s');
  }

  lemma LeadsOne(cfg: Config, s: State, t: Tid)
    requires Inv(cfg, s) && CanRun(cfg, s, t)
    ensures Leads(cfg, s, t, Do(cfg, s, Run(t, true))) && Inv(cfg, Do(cfg, s, Run(t, true)))
  {
    StepKeeps(cfg, s, Run(t, true));
    hide Inv, CanRun, Do;
    var next := Do(cfg, s, Run(t, true));
    Prepended(cfg, s, Run(t, true), Good(t, 0));
    assert LeadsIn(cfg, s, t, 1, next);
  }

  // ---- what a call keeps while it works --------------------------------------------------

  /** The innermost call of `t` is `c`, on top of `below`. */
  ghost predicate Calling(s: State, t: Tid, below: seq<Call>, c: Call) {
    t in s.threads && s.threads[t].calls == below + [c]
  }

  /** Registered, and running as far as the manager knows. */
  predicate Up(s: State, n: Name) {
    n in s.projects && s.projects[n] < |s.objs| && s.objs[s.projects[n]].status == Running
  }

  ghost predicate DepsUp(cfg: Config, s: State, n: Name) {
    n in cfg.deps ==> forall d :: d in cfg.deps[n] ==> Up(s, d)
  }

  /** No time passes, no exit is recorded, no other goroutine moves, and new ones make no calls. */
  ghost predicate Alone(s: State, s': State, t: Tid) {
    && s'.now == s.now && s'.crashes == s.crashes && s'.exits == s.exits && |s.objs| <= |s'.objs|
    && t in s.threads && t in s'.threads && s'.threads[t].base == s.threads[t].base
    && (forall u :: u in s.threads && u != t ==> u in s'.threads && s'.threads[u] == s.threads[u])
    && (forall u :: u in s'.threads && u !in s.threads ==> s'.threads[u].calls == [])
  }

  /** What was up stays up, and what came up has its dependencies up. */
  ghost predicate Grown(cfg: Config, s: State, s': State) {
    && (forall m :: Up(s, m) ==> Up(s', m))
    && (forall m :: Up(s', m) && !Up(s, m) ==> DepsUp(cfg, s', m))
  }

  /** The same projects are up, except perhaps `n`. */
  ghost predicate UpBut(s: State, s': State, n: Name) {
    forall m :: m != n ==> (Up(s', m) <==> Up(s, m))
  }

  lemma AloneOn(s: State, mid: State, s': State, t: Tid)
    requires Alone(s, mid, t) && Alone(mid, s', t)
    ensures Alone(s, s', t)
  {
    forall u | u in s'.threads && u !in s.threads
      ensures s'.threads[u].calls == []
    {
      if u in mid.threads { assert u != t; }
    }
  }

  lemma GrownOn(cfg: Config, s: State, mid: State, s': State)
    requires Grown(cfg, s, mid) && Grown(cfg, mid, s')
    ensures Grown(cfg, s, s')
  {
    forall m | Up(s', m) && !Up(s, m)
      ensures DepsUp(cfg, s', m)
    {
      if Up(mid, m) {
        assert DepsUp(cfg, mid, m);
      }
    }
  }

  /** A start of `n` gets to `m`: from `n`, `depends_on` leads there over projects that are not up. */
  ghost predicate Wanted(cfg: Config, s: State, n: Name, m: Name) {
    exists path :: WantPath(cfg, s, path) && path[0] == n && path[|path| - 1] == m
  }

  ghost predicate WantPath(cfg: Config, s: State, path: seq<Name>) {
    |path| > 1 && DependencyPath(cfg, path) && forall i :: 0 < i < |path| ==> !Up(s, path[i])
  }

  /** Nothing but what a start of `n` gets to came up. */
  ghost predicate OnlyWanted(cfg: Config, s: State, s': State, n: Name) {
    forall m :: Up(s', m) && !Up(s, m) ==> m == n || Wanted(cfg, s, n, m)
  }

  ghost predicate SameUps(s: State, s': State) {
    forall m :: Up(s', m) <==> Up(s, m)
  }

  lemma OnlyWantedOn(cfg: Config, s: State, mid: State, s': State, n: Name)
    requires Grown(cfg, s, mid) && OnlyWanted(cfg, s, mid, n) && OnlyWanted(cfg, mid, s', n)
    ensures OnlyWanted(cfg, s, s', n)
  {
    hide Up;
    forall m | Up(s', m) && !Up(s, m) && m != n
      ensures Wanted(cfg, s, n, m)
    {
      if !Up(mid, m) {
        var path :| WantPath(cfg, mid, path) && path[0] == n && path[|path| - 1] == m;
        assert WantPath(cfg, s, path);
      }
    }
  }

  /** What a call for a dependency `d` that is not up gets to, its caller gets to. */
  lemma AskedWanted(cfg: Config, s: State, x: State, y: State, s': State, n: Name, d: Name)
    requires SameUps(s, x) && OnlyWanted(cfg, x, y, d) && SameUps(y, s') && !Up(s, d) && DependsOn(cfg, n, d)
    ensures OnlyWanted(cfg, s, s', n)
  {
    hide Up;
    forall m | Up(s', m) && !Up(s, m)
      ensures Wanted(cfg, s, n, m)
    {
      assert DependencyPath(cfg, [d]);
      var tail := [d];
      if m != d {
        tail :| WantPath(cfg, x, tail) && tail[0] == d && tail[|tail| - 1] == m;
      }
      var path := [n] + tail;
      assert path[1..] == tail && path[|path| - 1] == m;
      assert WantPath(cfg, s, path);
    }
  }

  /** Stopping and launching `n` itself around it changes nothing about that: no path comes back to `n`. */
  lemma WantedAround(cfg: Config, s: State, a: State, b: State, s': State, n: Name)
    requires Startable(cfg, n) && UpBut(s, a, n) && OnlyWanted(cfg, a, b, n) && UpBut(b, s', n)
    ensures OnlyWanted(cfg, s, s', n)
  {
    hide Up, Startable;
    forall m | Up(s', m) && !Up(s, m) && m != n
      ensures Wanted(cfg, s, n, m)
    {
      var path :| WantPath(cfg, a, path) && path[0] == n && path[|path| - 1] == m;
      forall i | 0 < i < |path|
        ensures !Up(s, path[i])
      {
        PathDownAt(cfg, path, i);
      }
      assert WantPath(cfg, s, path);
    }
  }

  // ---- single steps ------------------------------------------------------------------------

  /** `t` moves its innermost call on to `c'`; the rest of the state is that of `r`. */
  function Onward(r: State, t: Tid, below: seq<Call>, c': Call): State
    requires t in r.threads
  {
    r.(threads := r.threads[t := r.threads[t].(calls := below + [c'])])
  }

  lemma OnwardIsAdvance(r: State, t: Tid, below: seq<Call>, c: Call, c': Call)
    requires Calling(r, t, below, c)
    ensures Advance(r, t, c') == Onward(r, t, below, c') && Top(r.threads[t]) == c
  {
    assert (below + [c])[|below| := c'] == below + [c'];
  }

  lemma OnwardTwice(r: State, t: Tid, below: seq<Call>, c: Call, c': Call)
    requires t in r.threads
    ensures Calling(Onward(r, t, below, c), t, below, c)
    ensures Onward(Onward(r, t, below, c), t, below, c') == Onward(r, t, below, c')
  {}

  lemma CanGo(cfg: Config, s: State, t: Tid, below: seq<Call>, c: Call)
    requires Inv(cfg, s) && Calling(s, t, below, c) && (c.pc == Lock ==> c.name !in s.locks)
    ensures CanRun(cfg, s, t) && Top(s.threads[t]) == c && CallOk(cfg, s, t, c)
  {
    assert Top(s.threads[t]) == c;
    TopOk(cfg, s, t);
    hide Inv;
    Unblocked(cfg, s, t);
  }

  /** One step of a call, given what the code says it does. */
  lemma CallStep(cfg: Config, s: State, t: Tid, below: seq<Call>, c: Call, s': State)
    requires Inv(cfg, s) && CanRun(cfg, s, t) && Calling(s, t, below, c) && RunCall(cfg, s, t, true) == s'
    ensures Leads(cfg, s, t, s') && Inv(cfg, s')
  {
    hide Inv, RunCall, CanRun, Leads;
    LeadsOne(cfg, s, t);
  }

  // Each step by itself: what the code does, and that `t` can do it.

  lemma DoLock(cfg: Config, s: State, t: Tid, below: seq<Call>, c: Call)
    requires Inv(cfg, s) && Calling(s, t, below, c) && c.pc == Lock && !c.stop && c.name !in s.locks
    ensures var s' := Onward(s.(locks := s.locks[c.name := t]), t, below, c.(pc := Circuit)); Leads(cfg, s, t, s') && Inv(cfg, s')
  {
    hide Inv, CanRun, Leads;
    CanGo(cfg, s, t, below, c);
    OnwardIsAdvance(s.(locks := s.locks[c.name := t]), t, below, c, c.(pc := Circuit));
    CallStep(cfg, s, t, below, c, Onward(s.(locks := s.locks[c.name := t]), t, below, c.(pc := Circuit)));
  }

  function Let(s: State, c: Call, pc: Pc): Call {
    c.(pc := pc, admittedAt := s.now, seen := |At(s.exits, c.name)|)
  }

  lemma DoCircuit(cfg: Config, s: State, t: Tid, below: seq<Call>, c: Call)
    requires Inv(cfg, s) && Calling(s, t, below, c) && c.pc == Circuit && !IsOpen(At(s.crashes, c.name), s.now)
    ensures var s' := Onward(s, t, below, Let(s, c, Lookup)); Leads(cfg, s, t, s') && Inv(cfg, s')
  {
    hide Inv, CanRun, Leads, IsOpen;
    CanGo(cfg, s, t, below, c);
    OnwardIsAdvance(s, t, below, c, Let(s, c, Lookup));
    CallStep(cfg, s, t, below, c, Onward(s, t, below, Let(s, c, Lookup)));
  }

  /** Steps that only move the pc of a call. */
  lemma DoMove(cfg: Config, s: State, t: Tid, below: seq<Call>, c: Call, pc: Pc)
    requires Inv(cfg, s) && Calling(s, t, below, c) && !c.stop
    requires match c.pc
             case Lookup => pc == if Up(s, c.name) then Flag(s.projects[c.name]) else ReadConfig
             case ReadConfig => c.name in cfg.deps && pc == Deps(0)
             case Deps(k) =>
               c.name in cfg.deps &&
               if k == |cfg.deps[c.name]| then pc == Launch
               else k < |cfg.deps[c.name]| && cfg.deps[c.name][k] in s.projects && pc == DepCheck(k, s.projects[cfg.deps[c.name][k]])
             case DepCheck(k, o) => o < |s.objs| && s.objs[o].status == Running && pc == Deps(k + 1)
             case _ => false
    ensures var s' := Onward(s, t, below, c.(pc := pc)); Leads(cfg, s, t, s') && Inv(cfg, s')
  {
    TableEntry(cfg, s, c);
    hide Inv, Leads, CallOk, TableOk;
    CanGo(cfg, s, t, below, c);
    MoveRuns(cfg, s, t, c, pc);
    hide CanRun, RunCall;
    OnwardIsAdvance(s, t, below, c, c.(pc := pc));
    CallStep(cfg, s, t, below, c, Onward(s, t, below, c.(pc := pc)));
  }

  /** What the code says about them. */
  lemma MoveRuns(cfg: Config, s: State, t: Tid, c: Call, pc: Pc)
    requires CanRun(cfg, s, t) && s.threads[t].calls != [] && Top(s.threads[t]) == c && !c.stop
    requires forall m :: m in s.projects ==> s.projects[m] < |s.objs| && s.objs[s.projects[m]].name == m
    requires match c.pc
             case Lookup => pc == if Up(s, c.name) then Flag(s.projects[c.name]) else ReadConfig
             case ReadConfig => c.name in cfg.deps && pc == Deps(0)
             case Deps(k) =>
               c.name in cfg.deps &&
               if k == |cfg.deps[c.name]| then pc == Launch
               else k < |cfg.deps[c.name]| && cfg.deps[c.name][k] in s.projects && pc == DepCheck(k, s.projects[cfg.deps[c.name][k]])
             case DepCheck(k, o) => o < |s.objs| && s.objs[o].status == Running && pc == Deps(k + 1)
             case _ => false
    ensures RunCall(cfg, s, t, true) == Advance(s, t, c.(pc := pc))
  {
    hide Launched, Return, AskCircuit, CallDep, IsOpen, At;
  }

  lemma TableEntry(cfg: Config, s: State, c: Call)
    requires Inv(cfg, s)
    ensures forall m :: m in s.projects ==> s.projects[m] < |s.objs| && s.objs[s.projects[m]].name == m && m in s.starts
  {
    forall m | m in s.projects
      ensures s.projects[m] < |s.objs| && s.objs[s.projects[m]].name == m && m in s.starts
    {
      assert ObjOk(s, s.projects[m]);
    }
  }

  /** Where a call goes on after `stopProject`. */
  function AfterStop(c: Call): Pc {
    if c.stop then Unlock(true) else ReadConfig
  }

  /** The three steps of `stopProject` on the registered object. */
  lemma DoStop(cfg: Config, s: State, t: Tid, below: seq<Call>, c: Call, o: nat)
    requires Inv(cfg, s) && Calling(s, t, below, c) && o < |s.objs| && (c.pc == Flag(o) || c.pc == Kill(o) || c.pc == Mark(o))
    ensures var p := s.objs[o];
            var p' := if c.pc.Flag? then p.(manuallyStopped := true) else if c.pc.Kill? then p.(live := false) else p.(status := Stopped);
            var s' := Onward(s.(objs := s.objs[o := p']), t, below, c.(pc := if c.pc.Flag? then Kill(o) else if c.pc.Kill? then Mark(o) else AfterStop(c)));
            Leads(cfg, s, t, s') && Inv(cfg, s')
  {
    hide Inv, CanRun, Leads, CallOk;
    var p := s.objs[o];
    var p' := if c.pc.Flag? then p.(manuallyStopped := true) else if c.pc.Kill? then p.(live := false) else p.(status := Stopped);
    var c' := c.(pc := if c.pc.Flag? then Kill(o) else if c.pc.Kill? then Mark(o) else AfterStop(c));
    CanGo(cfg, s, t, below, c);
    OnwardIsAdvance(s.(objs := s.objs[o := p']), t, below, c, c');
    CallStep(cfg, s, t, below, c, Onward(s.(objs := s.objs[o := p']), t, below, c'));
  }

  /** The object launched: the rest of its fields are as `Launched` sets them. */
  lemma DoLaunch(cfg: Config, s: State, t: Tid, below: seq<Call>, c: Call)
    requires Inv(cfg, s) && Calling(s, t, below, c) && c.pc == Launch
    ensures var s' := Onward(s.(objs := s.objs + [Launched(s, t, c)], starts := s.starts + [c.name]), t, below, c.(pc := Publish(|s.objs|)));
            Leads(cfg, s, t, s') && Inv(cfg, s')
  {
    hide Inv, CanRun, Leads, CallOk, Launched;
    CanGo(cfg, s, t, below, c);
    var r := s.(objs := s.objs + [Launched(s, t, c)], starts := s.starts + [c.name]);
    OnwardIsAdvance(r, t, below, c, c.(pc := Publish(|s.objs|)));
    CallStep(cfg, s, t, below, c, Onward(r, t, below, c.(pc := Publish(|s.objs|))));
  }

  lemma DoPublish(cfg: Config, s: State, t: Tid, below: seq<Call>, c: Call, o: nat)
    requires Inv(cfg, s) && Calling(s, t, below, c) && c.pc == Publish(o)
    ensures var up := Onward(s, t, below, c.(pc := Unlock(true)));
            var s' := up.(projects := s.projects[c.name := o], threads := up.threads[Watcher(o) := Thread(Watch(Wait), [])]);
            Leads(cfg, s, t, s') && Inv(cfg, s')
  {
    hide Inv, CanRun, Leads, CallOk;
    CanGo(cfg, s, t, below, c);
    OnwardIsAdvance(s, t, below, c, c.(pc := Unlock(true)));
    var up := Onward(s, t, below, c.(pc := Unlock(true)));
    CallStep(cfg, s, t, below, c, up.(projects := s.projects[c.name := o], threads := up.threads[Watcher(o) := Thread(Watch(Wait), [])]));
  }

  /** A dependency that is not up gets a call of its own. */
  lemma DoCall(cfg: Config, s: State, t: Tid, below: seq<Call>, c: Call, k: nat)
    requires Inv(cfg, s) && Calling(s, t, below, c) && c.name in cfg.deps && k < |cfg.deps[c.name]|
    requires (c.pc == Deps(k) && cfg.deps[c.name][k] !in s.projects)
             || (exists o: nat :: c.pc == DepCheck(k, o) && o < |s.objs| && s.objs[o].status != Running)
    ensures var s' := Onward(s, t, below + [c.(pc := DepCall(k))], Call(false, cfg.deps[c.name][k], Lock, 0, 0));
            Leads(cfg, s, t, s') && Inv(cfg, s')
  {
    hide Inv, CanRun, Leads, CallOk;
    CanGo(cfg, s, t, below, c);
    var made := Call(false, cfg.deps[c.name][k], Lock, 0, 0);
    OnwardIsAdvance(s, t, below, c, c.(pc := DepCall(k)));
    assert Goto(s.threads[t], DepCall(k)).calls == below + [c.(pc := DepCall(k))];
    CallStep(cfg, s, t, below, c, Onward(s, t, below + [c.(pc := DepCall(k))], made));
  }

  /** The call returns, and its caller goes on to the next dependency. */
  lemma DoReturn(cfg: Config, s: State, t: Tid, below: seq<Call>, caller: Call, c: Call, k: nat)
    requires Inv(cfg, s) && Calling(s, t, below + [caller], c) && c.pc == Unlock(true) && caller.pc == DepCall(k)
    ensures var s' := Onward(s.(locks := s.locks - {c.name}), t, below, caller.(pc := Deps(k + 1))); Leads(cfg, s, t, s') && Inv(cfg, s')
  {
    hide Inv, CanRun, Leads, CallOk;
    CanGo(cfg, s, t, below + [caller], c);
    var th := s.threads[t];
    assert th.calls[..|th.calls| - 1] == below + [caller];
    assert (below + [caller])[|below| := caller.(pc := Deps(k + 1))] == below + [caller.(pc := Deps(k + 1))];
    CallStep(cfg, s, t, below + [caller], c, Onward(s.(locks := s.locks - {c.name}), t, below, caller.(pc := Deps(k + 1))));
  }

  // ---- from the call to its dependencies ------------------------------------------------------

  function Halted(p: Project): Project {
    p.(manuallyStopped := true, live := false, status := Stopped)
  }

  /** The objects after an instance of `n` that was running has been stopped. */
  function Replaced(s: State, n: Name): seq<Project> {
    if Up(s, n) then s.objs[s.projects[n] := Halted(s.objs[s.projects[n]])] else s.objs
  }

  lemma OnwardObjs(r: State, t: Tid, below: seq<Call>, c: Call, objs: seq<Project>, c': Call)
    requires t in r.threads
    ensures Calling(Onward(r, t, below, c), t, below, c)
    ensures Onward(Onward(r, t, below, c).(objs := objs), t, below, c') == Onward(r.(objs := objs), t, below, c')
  {}

  lemma StopRunning(cfg: Config, r: State, t: Tid, below: seq<Call>, c: Call, o: nat)
    requires t in r.threads && o < |r.objs|
    requires Inv(cfg, Onward(r, t, below, c.(pc := Flag(o))))
    ensures var s, s' := Onward(r, t, below, c.(pc := Flag(o))), Onward(r.(objs := r.objs[o := Halted(r.objs[o])]), t, below, c.(pc := AfterStop(c)));
            Leads(cfg, s, t, s') && Inv(cfg, s')
  {
    hide Inv, Leads;
    var p := r.objs[o];
    var objs1 := r.objs[o := p.(manuallyStopped := true)];
    var objs2 := objs1[o := objs1[o].(live := false)];
    var objs3 := objs2[o := objs2[o].(status := Stopped)];
    assert objs3 == r.objs[o := Halted(p)];
    var s := Onward(r, t, below, c.(pc := Flag(o)));
    var s1 := Onward(r.(objs := objs1), t, below, c.(pc := Kill(o)));
    var s2 := Onward(r.(objs := objs2), t, below, c.(pc := Mark(o)));
    var s3 := Onward(r.(objs := objs3), t, below, c.(pc := AfterStop(c)));
    OnwardObjs(r, t, below, c.(pc := Flag(o)), objs1, c.(pc := Kill(o)));
    OnwardObjs(r.(objs := objs1), t, below, c.(pc := Kill(o)), objs2, c.(pc := Mark(o)));
    OnwardObjs(r.(objs := objs2), t, below, c.(pc := Mark(o)), objs3, c.(pc := AfterStop(c)));
    DoStop(cfg, s, t, below, c.(pc := Flag(o)), o);
    assert s.objs == r.objs && s1.objs == objs1 && s2.objs == objs2;
    hide Onward, Calling;
    DoStop(cfg, s1, t, below, c.(pc := Kill(o)), o);
    DoStop(cfg, s2, t, below, c.(pc := Mark(o)), o);
    LeadsOn(cfg, s, t, s1, s2);
    LeadsOn(cfg, s, t, s2, s3);
  }

  /** The lock taken, the breaker passed, a running instance stopped, and the manifest read. */
  function Prepared(s: State, t: Tid, below: seq<Call>, c: Call): State
    requires t in s.threads
  {
    Onward(s.(locks := s.locks[c.name := t], objs := Replaced(s, c.name)), t, below, Let(s, c, Deps(0)))
  }

  lemma Prepare(cfg: Config, s: State, t: Tid, below: seq<Call>, c: Call)
    requires Inv(cfg, s) && Calling(s, t, below, c) && c.pc == Lock && !c.stop
    requires c.name !in s.locks && !IsOpen(At(s.crashes, c.name), s.now) && c.name in cfg.deps
    ensures Leads(cfg, s, t, Prepared(s, t, below, c)) && Inv(cfg, Prepared(s, t, below, c))
  {
    hide Inv, Leads, IsOpen;
    var r := s.(locks := s.locks[c.name := t]);
    var s1 := Onward(r, t, below, c.(pc := Circuit));
    var s2 := Onward(r, t, below, Let(s, c, Lookup));
    DoLock(cfg, s, t, below, c);
    OnwardTwice(r, t, below, c.(pc := Circuit), Let(s, c, Lookup));
    DoCircuit(cfg, s1, t, below, c.(pc := Circuit));
    LeadsOn(cfg, s, t, s1, s2);
    Looked(cfg, r, t, below, Let(s, c, Lookup));
    LeadsOn(cfg, s, t, s2, Prepared(s, t, below, c));
  }

  lemma Looked(cfg: Config, r: State, t: Tid, below: seq<Call>, c: Call)
    requires t in r.threads && c.pc == Lookup && !c.stop && c.name in cfg.deps && Inv(cfg, Onward(r, t, below, c))
    ensures var s, s' := Onward(r, t, below, c), Onward(r.(objs := Replaced(r, c.name)), t, below, c.(pc := Deps(0)));
            Leads(cfg, s, t, s') && Inv(cfg, s')
  {
    hide Inv, Leads;
    var s := Onward(r, t, below, c);
    var read := Onward(r.(objs := Replaced(r, c.name)), t, below, c.(pc := ReadConfig));
    if Up(r, c.name) {
      var o := r.projects[c.name];
      var flag := Onward(r, t, below, c.(pc := Flag(o)));
      OnwardTwice(r, t, below, c, c.(pc := Flag(o)));
      DoMove(cfg, s, t, below, c, Flag(o));
      StopRunning(cfg, r, t, below, c, o);
      LeadsOn(cfg, s, t, flag, read);
    } else {
      OnwardTwice(r, t, below, c, c.(pc := ReadConfig));
      DoMove(cfg, s, t, below, c, ReadConfig);
    }
    OnwardTwice(r.(objs := Replaced(r, c.name)), t, below, c.(pc := ReadConfig), c.(pc := Deps(0)));
    DoMove(cfg, read, t, below, c.(pc := ReadConfig), Deps(0));
    LeadsOn(cfg, s, t, read, Onward(r.(objs := Replaced(r, c.name)), t, below, c.(pc := Deps(0))));
  }

  lemma PreparedFacts(cfg: Config, s: State, t: Tid, below: seq<Call>, c: Call)
    requires Inv(cfg, s) && Calling(s, t, below, c)
    ensures var s' := Prepared(s, t, below, c);
            Alone(s, s', t) && UpBut(s, s', c.name) && Calling(s', t, below, Let(s, c, Deps(0)))
            && s'.locks == s.locks[c.name := t] && s'.projects == s.projects
  {
    hide Inv;
    TableEntry(cfg, s, c);
  }

  // ---- the launch --------------------------------------------------------------------------------

  /** The new process running, registered and watched; only the lock is still to be given back. */
  function Relaunched(s: State, t: Tid, below: seq<Call>, c: Call): State
    requires t in s.threads
  {
    var o := |s.objs|;
    var launching := Onward(s, t, below, c.(pc := Launch));
    var up := Onward(s, t, below, c.(pc := Unlock(true)));
    up.(objs := s.objs + [Launched(launching, t, c.(pc := Launch))], starts := s.starts + [c.name],
        projects := s.projects[c.name := o], threads := up.threads[Watcher(o) := Thread(Watch(Wait), [])])
  }

  lemma LaunchAll(cfg: Config, s: State, t: Tid, below: seq<Call>, c: Call)
    requires Inv(cfg, s) && Calling(s, t, below, c) && !c.stop && c.name in cfg.deps && c.pc == Deps(|cfg.deps[c.name]|)
    ensures Leads(cfg, s, t, Relaunched(s, t, below, c)) && Inv(cfg, Relaunched(s, t, below, c))
  {
    hide Inv, Leads, Launched;
    var s1 := Onward(s, t, below, c.(pc := Launch));
    var p := Launched(s1, t, c.(pc := Launch));
    var r := s.(objs := s.objs + [p], starts := s.starts + [c.name]);
    var s2 := Onward(r, t, below, c.(pc := Publish(|s.objs|)));
    DoMove(cfg, s, t, below, c, Launch);
    DoLaunch(cfg, s1, t, below, c.(pc := Launch));
    assert Onward(s1.(objs := s1.objs + [p], starts := s1.starts + [c.name]), t, below, c.(pc := Publish(|s.objs|))) == s2;
    OnwardTwice(r, t, below, c.(pc := Publish(|s.objs|)), c.(pc := Unlock(true)));
    DoPublish(cfg, s2, t, below, c.(pc := Publish(|s.objs|)), |s.objs|);
    LeadsOn(cfg, s, t, s1, s2);
    LeadsOn(cfg, s, t, s2, Relaunched(s, t, below, c));
  }

  /** The object `o` of `n` is a live process nobody stopped, registered, and its watcher waits for its end. */
  ghost predicate Serving(s: State, n: Name, o: nat) {
    && o < |s.objs| && s.objs[o].live && s.objs[o].name == n && Up(s, n) && s.projects[n] == o && !s.objs[o].manuallyStopped
    && Watcher(o) in s.threads && s.threads[Watcher(o)] == Thread(Watch(Wait), [])
  }

  lemma LaunchedAlone(s: State, t: Tid, below: seq<Call>, c: Call)
    requires Calling(s, t, below, c) && Watcher(|s.objs|) !in s.threads
    ensures var s' := Relaunched(s, t, below, c);
            && Alone(s, s', t) && Calling(s', t, below, c.(pc := Unlock(true))) && s'.locks == s.locks
  {
    hide Launched;
  }

  lemma LaunchedUp(s: State, t: Tid, below: seq<Call>, c: Call)
    requires Calling(s, t, below, c) && forall m :: m in s.projects ==> s.projects[m] < |s.objs|
    ensures var s' := Relaunched(s, t, below, c);
            && UpBut(s, s', c.name) && Serving(s', c.name, |s.objs|)
            && s'.objs[|s.objs|].parent == if t.Watcher? && below == [] then Some(t.obj) else None
  {
    var s' := Relaunched(s, t, below, c);
    assert s'.objs[..|s.objs|] == s.objs && s'.projects == s.projects[c.name := |s.objs|];
    forall m | m != c.name
      ensures Up(s', m) <==> Up(s, m)
    {}
  }

  lemma LaunchedFacts(cfg: Config, s: State, t: Tid, below: seq<Call>, c: Call)
    requires Inv(cfg, s) && Calling(s, t, below, c)
    ensures var s' := Relaunched(s, t, below, c);
            && Alone(s, s', t) && UpBut(s, s', c.name) && Calling(s', t, below, c.(pc := Unlock(true))) && s'.locks == s.locks
            && Serving(s', c.name, |s.objs|)
            && s'.objs[|s.objs|].parent == if t.Watcher? && below == [] then Some(t.obj) else None
  {
    WatchersExist(cfg, s);
    TableEntry(cfg, s, c);
    hide Inv, Relaunched, Alone, UpBut, Serving, Calling;
    LaunchedAlone(s, t, below, c);
    LaunchedUp(s, t, below, c);
  }

  // ---- a whole start, dependencies included -------------------------------------------------------

  /** Nobody holds the lock of `n`, and its breaker is closed. */
  predicate Free(s: State, n: Name) {
    n !in s.locks && !IsOpen(At(s.crashes, n), s.now)
  }

  ghost predicate ConeFree(cfg: Config, s: State, n: Name) {
    forall m :: InCone(cfg, n, m) ==> Free(s, m)
  }

  /** Stopping the old instance, bringing up the dependencies and launching the new one, taken together. */
  lemma GrownAround(cfg: Config, s: State, a: State, b: State, s': State, n: Name)
    requires UpBut(s, a, n) && Grown(cfg, a, b) && UpBut(b, s', n) && Up(s', n) && DepsUp(cfg, b, n)
    ensures Grown(cfg, s, s') && DepsUp(cfg, s', n)
  {
    forall m | m != n && Up(s', m) && !Up(s, m)
      ensures DepsUp(cfg, s', m)
    {
      assert Up(b, m) && !Up(a, m);
      assert DepsUp(cfg, b, m);
    }
  }

  lemma DepsFree(cfg: Config, s: State, a: State, t: Tid, n: Name, d: Name)
    requires Startable(cfg, n) && DependsOn(cfg, n, d) && ConeFree(cfg, s, n)
    requires a.locks == s.locks[n := t] && a.crashes == s.crashes && a.now == s.now
    ensures Startable(cfg, d) && Depth(cfg, d) < Depth(cfg, n) && ConeFree(cfg, a, d)
  {
    DepthDown(cfg, n, d);
    forall m | InCone(cfg, d, m)
      ensures Free(a, m)
    {
      ConeDep(cfg, n, d, m);
      ConeDown(cfg, d, m);
      assert Free(s, m);
    }
  }

  /** Up to the first dependency. */
  lemma CallBegins(cfg: Config, s: State, t: Tid, below: seq<Call>, c: Call) returns (a: State, ca: Call)
    requires Inv(cfg, s) && Calling(s, t, below, c) && c.pc == Lock && !c.stop
    requires Startable(cfg, c.name) && ConeFree(cfg, s, c.name)
    ensures c.name in cfg.deps && ca.name == c.name && ca.pc == Deps(0) && !ca.stop
    ensures Leads(cfg, s, t, a) && Inv(cfg, a) && Calling(a, t, below, ca)
    ensures a.locks == s.locks[c.name := t] && Alone(s, a, t) && UpBut(s, a, c.name)
    ensures DepsReady(cfg, a, cfg.deps[c.name], 0, |cfg.deps[c.name]|, Depth(cfg, c.name)) && FirstUp(a, cfg.deps[c.name], 0)
  {
    var n := c.name;
    ConeSelf(cfg, n);
    assert Free(s, n);
    StartableIff(cfg, n);
    a, ca := Prepared(s, t, below, c), Let(s, c, Deps(0));
    Prepare(cfg, s, t, below, c);
    PreparedFacts(cfg, s, t, below, c);
    hide Inv, Leads, UpBut, ConeFree, Startable, Calling, Prepared, Free;
    MoreObjs(s, a, t);
    hide Alone, Let, Up;
    AllDepsReady(cfg, s, a, t, n);
  }

  lemma AllDepsReady(cfg: Config, s: State, a: State, t: Tid, n: Name)
    requires Startable(cfg, n) && n in cfg.deps && ConeFree(cfg, s, n)
    requires a.locks == s.locks[n := t] && a.crashes == s.crashes && a.now == s.now
    ensures DepsReady(cfg, a, cfg.deps[n], 0, |cfg.deps[n]|, Depth(cfg, n)) && FirstUp(a, cfg.deps[n], 0)
  {
    hide Startable, ConeFree;
    forall j | 0 <= j < |cfg.deps[n]|
      ensures Startable(cfg, cfg.deps[n][j]) && Depth(cfg, cfg.deps[n][j]) < Depth(cfg, n) && ConeFree(cfg, a, cfg.deps[n][j])
    {
      DepsFree(cfg, s, a, t, n, cfg.deps[n][j]);
    }
  }

  /** From the last dependency to the launch. */
  lemma CallEnds(cfg: Config, s: State, a: State, b: State, t: Tid, below: seq<Call>, c: Call) returns (s': State, o: nat)
    requires Inv(cfg, b) && Calling(b, t, below, c) && !c.stop && c.name in cfg.deps && c.pc == Deps(|cfg.deps[c.name]|)
    requires Leads(cfg, s, t, a) && Alone(s, a, t) && UpBut(s, a, c.name)
    requires Leads(cfg, a, t, b) && Alone(a, b, t) && Grown(cfg, a, b) && OnlyWanted(cfg, a, b, c.name) && Startable(cfg, c.name)
    requires FirstUp(b, cfg.deps[c.name], |cfg.deps[c.name]|)
    ensures Leads(cfg, s, t, s') && Inv(cfg, s') && Calling(s', t, below, c.(pc := Unlock(true)))
    ensures s'.locks == b.locks && Alone(s, s', t) && Grown(cfg, s, s') && OnlyWanted(cfg, s, s', c.name)
    ensures Serving(s', c.name, o) && o >= |s.objs| && DepsUp(cfg, s', c.name)
    ensures s'.objs[o].parent == if t.Watcher? && below == [] then Some(t.obj) else None
  {
    assert DepsUp(cfg, b, c.name);
    s', o := Relaunched(b, t, below, c), |b.objs|;
    hide Inv, Leads, Grown, UpBut, Calling, Relaunched, Serving, DepsUp, Up, Startable, OnlyWanted;
    MoreObjs(s, a, t);
    MoreObjs(a, b, t);
    hide Alone;
    LaunchAll(cfg, b, t, below, c);
    LaunchedFacts(cfg, b, t, below, c);
    ServingUp(s', c.name, o);
    GrownAround(cfg, s, a, b, s', c.name);
    WantedAround(cfg, s, a, b, s', c.name);
    LeadsOn(cfg, s, t, a, b);
    LeadsOn(cfg, s, t, b, s');
    AloneOn(s, a, b, t);
    AloneOn(s, b, s', t);
  }

  /** A call of `StartProject` for a startable project whose dependency cone is free ends with a new live
      process of it, all its dependencies up, and everything else that was up still up. */
  lemma {:induction false} CallComes(cfg: Config, s: State, t: Tid, below: seq<Call>, c: Call) returns (s': State, c': Call, o: nat)
    requires Inv(cfg, s) && Calling(s, t, below, c) && c.pc == Lock && !c.stop
    requires Startable(cfg, c.name) && ConeFree(cfg, s, c.name)
    ensures Leads(cfg, s, t, s') && Inv(cfg, s') && Calling(s', t, below, c') && c'.name == c.name && c'.pc == Unlock(true)
    ensures s'.locks == s.locks[c.name := t] && Alone(s, s', t) && Grown(cfg, s, s') && OnlyWanted(cfg, s, s', c.name)
    ensures Serving(s', c.name, o) && o >= |s.objs| && DepsUp(cfg, s', c.name)
    ensures s'.objs[o].parent == if t.Watcher? && below == [] then Some(t.obj) else None
    decreases Depth(cfg, c.name), 1, 0
  {
    var a, ca := CallBegins(cfg, s, t, below, c);
    hide Inv, Leads, Alone, Grown, UpBut, ConeFree, Startable, Calling, DepsUp, Up, DepsReady, FirstUp, OnlyWanted;
    var b := DepsCome(cfg, a, t, below, ca, 0, |cfg.deps[c.name]|, Depth(cfg, c.name));
    c' := ca.(pc := Unlock(true));
    s', o := CallEnds(cfg, s, a, b, t, below, ca.(pc := Deps(|cfg.deps[c.name]|)));
  }

  lemma ServingUp(s: State, n: Name, o: nat)
    requires Serving(s, n, o)
    ensures Up(s, n) && o < |s.objs|
  {}

  lemma MoreObjs(s: State, s': State, t: Tid)
    requires Alone(s, s', t)
    ensures |s.objs| <= |s'.objs| && s'.crashes == s.crashes && s'.exits == s.exits && s'.now == s.now
    ensures t in s.threads && t in s'.threads && s'.threads[t].base == s.threads[t].base
  {}

  /** The dependencies from `k` on to `to` can be brought up. */
  ghost predicate DepsReady(cfg: Config, s: State, deps: seq<Name>, k: nat, to: nat, bound: nat)
    requires to <= |deps|
  {
    forall j :: k <= j < to ==> Startable(cfg, deps[j]) && Depth(cfg, deps[j]) < bound && ConeFree(cfg, s, deps[j])
  }

  ghost predicate FirstUp(s: State, deps: seq<Name>, k: nat)
    requires k <= |deps|
  {
    forall j :: 0 <= j < k ==> Up(s, deps[j])
  }

  lemma DepsReadyNext(cfg: Config, s: State, s': State, deps: seq<Name>, k: nat, to: nat, bound: nat, t: Tid)
    requires k < to <= |deps| && DepsReady(cfg, s, deps, k, to, bound) && FirstUp(s, deps, k)
    requires s'.locks == s.locks && Alone(s, s', t) && Grown(cfg, s, s') && Up(s', deps[k])
    ensures DepsReady(cfg, s', deps, k + 1, to, bound) && FirstUp(s', deps, k + 1)
  {
    forall j | k + 1 <= j < to
      ensures ConeFree(cfg, s', deps[j])
    {
      StillFreeOne(cfg, s, s', deps[j]);
    }
  }

  /** From dependency `k` on to dependency `to`. */
  lemma {:induction false} DepsCome(cfg: Config, s: State, t: Tid, below: seq<Call>, c: Call, k: nat, to: nat, bound: nat) returns (s': State)
    requires Inv(cfg, s) && Calling(s, t, below, c) && c.pc == Deps(k) && !c.stop && c.name in cfg.deps && k <= to <= |cfg.deps[c.name]|
    requires DepsReady(cfg, s, cfg.deps[c.name], k, to, bound) && FirstUp(s, cfg.deps[c.name], k)
    ensures Leads(cfg, s, t, s') && Inv(cfg, s') && Calling(s', t, below, c.(pc := Deps(to)))
    ensures s'.locks == s.locks && Alone(s, s', t) && Grown(cfg, s, s') && FirstUp(s', cfg.deps[c.name], to)
    ensures OnlyWanted(cfg, s, s', c.name)
    decreases bound, 0, to - k
  {
    if k == to {
      LeadsNowhere(cfg, s, t);
      s' := s;
    } else {
      assert Startable(cfg, cfg.deps[c.name][k]) && Depth(cfg, cfg.deps[c.name][k]) < bound && ConeFree(cfg, s, cfg.deps[c.name][k]);
      hide Inv, Leads, Calling, ConeFree, Startable, DepsReady, FirstUp, Alone, Grown, Up, OnlyWanted;
      var mid := DepComes(cfg, s, t, below, c, k);
      DepsReadyNext(cfg, s, mid, cfg.deps[c.name], k, to, bound, t);
      s' := DepsCome(cfg, mid, t, below, c.(pc := Deps(k + 1)), k + 1, to, bound);
      LeadsOn(cfg, s, t, mid, s');
      AloneOn(s, mid, s', t);
      GrownOn(cfg, s, mid, s');
      OnlyWantedOn(cfg, s, mid, s', c.name);
    }
  }

  /** One dependency: passed over if it is up, started otherwise. */
  lemma {:induction false} DepComes(cfg: Config, s: State, t: Tid, below: seq<Call>, c: Call, k: nat) returns (s': State)
    requires Inv(cfg, s) && Calling(s, t, below, c) && c.pc == Deps(k) && !c.stop
    requires c.name in cfg.deps && k < |cfg.deps[c.name]|
    requires Startable(cfg, cfg.deps[c.name][k]) && ConeFree(cfg, s, cfg.deps[c.name][k])
    ensures Leads(cfg, s, t, s') && Inv(cfg, s') && Calling(s', t, below, c.(pc := Deps(k + 1)))
    ensures s'.locks == s.locks && Alone(s, s', t) && Grown(cfg, s, s') && Up(s', cfg.deps[c.name][k])
    ensures OnlyWanted(cfg, s, s', c.name)
    decreases Depth(cfg, cfg.deps[c.name][k]), 2, 0
  {
    var d := cfg.deps[c.name][k];
    TableEntry(cfg, s, c);
    if Up(s, d) {
      s' := PassOver(cfg, s, t, below, c, k);
    } else {
      var caller, made := c.(pc := DepCall(k)), Call(false, d, Lock, 0, 0);
      var x := AskFor(cfg, s, t, below, c, k);
      StillFreeOne(cfg, s, x, d);
      hide Inv, Leads, Alone, Grown, ConeFree, Startable, Calling, Serving, Up, OnlyWanted, SameUps;
      var y, cy, o := CallComes(cfg, x, t, below + [caller], made);
      ServingUp(y, d, o);
      MoreObjs(x, y, t);
      s' := Onward(y.(locks := y.locks - {d}), t, below, caller.(pc := Deps(k + 1)));
      DoReturn(cfg, y, t, below, caller, cy, k);
      LeadsOn(cfg, s, t, x, y);
      LeadsOn(cfg, s, t, y, s');
      ReturnFacts(cfg, s, x, y, t, below, caller.(pc := Deps(k + 1)), d);
      AskedWanted(cfg, s, x, y, s', c.name, d);
    }
  }

  lemma StillFreeOne(cfg: Config, s: State, s': State, d: Name)
    requires ConeFree(cfg, s, d) && s'.locks == s.locks && s'.crashes == s.crashes && s'.now == s.now
    ensures ConeFree(cfg, s', d) && d !in s.locks
  {
    ConeSelf(cfg, d);
    assert Free(s, d);
    forall m | InCone(cfg, d, m)
      ensures Free(s', m)
    {
      assert Free(s, m);
    }
  }

  lemma PassOver(cfg: Config, s: State, t: Tid, below: seq<Call>, c: Call, k: nat) returns (s': State)
    requires Inv(cfg, s) && Calling(s, t, below, c) && c.pc == Deps(k) && !c.stop
    requires c.name in cfg.deps && k < |cfg.deps[c.name]| && Up(s, cfg.deps[c.name][k])
    ensures Leads(cfg, s, t, s') && Inv(cfg, s') && Calling(s', t, below, c.(pc := Deps(k + 1)))
    ensures s'.locks == s.locks && Alone(s, s', t) && Grown(cfg, s, s') && Up(s', cfg.deps[c.name][k])
    ensures OnlyWanted(cfg, s, s', c.name)
  {
    hide Inv, Leads;
    var check := c.(pc := DepCheck(k, s.projects[cfg.deps[c.name][k]]));
    var mid := Onward(s, t, below, check);
    s' := Onward(s, t, below, c.(pc := Deps(k + 1)));
    DoMove(cfg, s, t, below, c, check.pc);
    OnwardTwice(s, t, below, check, c.(pc := Deps(k + 1)));
    DoMove(cfg, mid, t, below, check, Deps(k + 1));
    LeadsOn(cfg, s, t, mid, s');
  }

  lemma AskFor(cfg: Config, s: State, t: Tid, below: seq<Call>, c: Call, k: nat) returns (s': State)
    requires Inv(cfg, s) && Calling(s, t, below, c) && c.pc == Deps(k) && !c.stop
    requires c.name in cfg.deps && k < |cfg.deps[c.name]| && !Up(s, cfg.deps[c.name][k])
    ensures s' == Onward(s, t, below + [c.(pc := DepCall(k))], Call(false, cfg.deps[c.name][k], Lock, 0, 0))
    ensures Leads(cfg, s, t, s') && Inv(cfg, s')
    ensures Calling(s', t, below + [c.(pc := DepCall(k))], Call(false, cfg.deps[c.name][k], Lock, 0, 0))
    ensures Alone(s, s', t) && Grown(cfg, s, s') && SameUps(s, s') && s'.locks == s.locks && s'.crashes == s.crashes && s'.now == s.now
  {
    var d, caller := cfg.deps[c.name][k], c.(pc := DepCall(k));
    TableEntry(cfg, s, c);
    hide Inv, Leads;
    s' := Onward(s, t, below + [caller], Call(false, d, Lock, 0, 0));
    OnwardFacts(cfg, s, t, below, c, below + [caller], Call(false, d, Lock, 0, 0));
    if d in s.projects {
      var check := c.(pc := DepCheck(k, s.projects[d]));
      var mid := Onward(s, t, below, check);
      DoMove(cfg, s, t, below, c, check.pc);
      OnwardPushed(s, t, below, check, below + [caller], Call(false, d, Lock, 0, 0));
      DoCall(cfg, mid, t, below, check, k);
      hide Onward, Alone, Grown, Calling, Up, SameUps;
      LeadsOn(cfg, s, t, mid, s');
    } else {
      DoCall(cfg, s, t, below, c, k);
    }
  }

  lemma OnwardPushed(r: State, t: Tid, below: seq<Call>, c: Call, below': seq<Call>, c': Call)
    requires t in r.threads
    ensures Calling(Onward(r, t, below, c), t, below, c)
    ensures Onward(Onward(r, t, below, c), t, below', c') == Onward(r, t, below', c')
  {}

  /** Only a stack of calls changed. */
  lemma OnwardFacts(cfg: Config, s: State, t: Tid, below: seq<Call>, c: Call, below': seq<Call>, c': Call)
    requires Calling(s, t, below, c)
    ensures var s' := Onward(s, t, below', c');
            Alone(s, s', t) && Grown(cfg, s, s') && SameUps(s, s') && Calling(s', t, below', c') && s'.locks == s.locks && s'.crashes == s.crashes && s'.now == s.now
  {}

  lemma ReturnFacts(cfg: Config, s: State, x: State, y: State, t: Tid, below: seq<Call>, c: Call, d: Name)
    requires Alone(s, x, t) && Grown(cfg, s, x) && x.locks == s.locks && d !in s.locks
    requires Alone(x, y, t) && Grown(cfg, x, y) && y.locks == x.locks[d := t] && Up(y, d)
    ensures var s' := Onward(y.(locks := y.locks - {d}), t, below, c);
            && Calling(s', t, below, c) && s'.locks == s.locks && Alone(s, s', t) && Grown(cfg, s, s') && SameUps(y, s') && Up(s', d)
  {
    var s' := Onward(y.(locks := y.locks - {d}), t, below, c);
    AloneOn(s, x, y, t);
    GrownOn(cfg, s, x, y);
    assert forall m :: Up(s', m) <==> Up(y, m);
    assert forall m :: DepsUp(cfg, y, m) ==> DepsUp(cfg, s', m);
  }

  lemma DoFinish(cfg: Config, s: State, t: Tid, c: Call) returns (s': State)
    requires Inv(cfg, s) && Calling(s, t, [], c) && c.pc == Unlock(true)
    ensures Leads(cfg, s, t, s') && Inv(cfg, s') && t in s'.threads && s'.threads[t].calls == [] && s'.locks == s.locks - {c.name}
    ensures s' == s.(locks := s'.locks, threads := s'.threads) && s'.threads.Keys == s.threads.Keys
    ensures s.threads[t].base == Caller ==> s'.threads == s.threads[t := Thread(Caller, [])]
  {
    hide Inv, Leads, CallOk, CanRun, RunCall, Return, ReturnedState;
    CanGo(cfg, s, t, [], c);
    FinishedState(s, t, c);
    UnlockRuns(cfg, s, t, true);
    s' := ReturnedState(s, t, true);
    CallStep(cfg, s, t, [], c, s');
  }

  lemma FinishedState(s: State, t: Tid, c: Call)
    requires Calling(s, t, [], c) && c.pc == Unlock(true)
    ensures s.threads[t].calls != [] && Top(s.threads[t]) == c
    ensures var s' := ReturnedState(s, t, true);
            && t in s'.threads && s'.threads[t].calls == [] && s'.locks == s.locks - {c.name}
            && s' == s.(locks := s'.locks, threads := s'.threads) && s'.threads.Keys == s.threads.Keys
            && (s.threads[t].base == Caller ==> s'.threads == s.threads[t := Thread(Caller, [])])
  {
    assert s.threads[t].calls == [c] && s.threads[t].calls[..0] == [];
  }

  lemma UnlockRuns(cfg: Config, s: State, t: Tid, ok: bool)
    requires CanRun(cfg, s, t) && s.threads[t].calls != [] && Top(s.threads[t]).pc == Unlock(ok)
    ensures RunCall(cfg, s, t, true) == ReturnedState(s, t, ok)
  {
    hide Launched, Return, AskCircuit, LookUp, CallDep, IsOpen, At;
  }

  /** Steps of caller `k` alone end its start of `n` in `s'`: `o` is a new live process of it, registered and
      watched, its dependencies are up, whatever was up still is, and all locks are given back. */
  ghost predicate Launches(cfg: Config, s: State, k: nat, n: Name, s': State, o: nat) {
    && Client(k) !in s.threads && Leads(cfg, Do(cfg, s, Begin(k, false, n)), Client(k), s')
    && Client(k) in s'.threads && s'.threads[Client(k)].calls == []
    && s'.locks == s.locks && s'.crashes == s.crashes && s'.exits == s.exits && s'.now == s.now
    && Serving(s', n, o) && o >= |s.objs| && DepsUp(cfg, s', n) && Grown(cfg, s, s') && OnlyWanted(cfg, s, s', n)
  }

  /** So does every start of a startable project with a free dependency cone, whatever the rest of the state. */
  lemma StartLaunches(cfg: Config, now: int, run: seq<Action>, k: nat, n: Name)
    requires Feasible(cfg, Initial(now), run) && Startable(cfg, n)
    requires var s := Exec(cfg, Initial(now), run); Client(k) !in s.threads && ConeFree(cfg, s, n)
    ensures exists s', o :: Launches(cfg, Exec(cfg, Initial(now), run), k, n, s', o)
  {
    hide *;
    var s', o := LaunchingStart(cfg, now, run, k, n);
  }

  lemma LaunchingStart(cfg: Config, now: int, run: seq<Action>, k: nat, n: Name) returns (s': State, o: nat)
    requires Feasible(cfg, Initial(now), run) && Startable(cfg, n)
    requires var s := Exec(cfg, Initial(now), run); Client(k) !in s.threads && ConeFree(cfg, s, n)
    ensures Launches(cfg, Exec(cfg, Initial(now), run), k, n, s', o)
  {
    var s, t := Exec(cfg, Initial(now), run), Client(k);
    InitialOk(cfg, now);
    RunKeeps(cfg, Initial(now), run);
    var s1 := Do(cfg, s, Begin(k, false, n));
    Begun(cfg, s, k, n);
    hide Inv, Leads, ConeFree, Startable, Calling, Grown, Alone, Do, Feasible, Exec, Serving, DepsUp, OnlyWanted;
    var s2, c2, x := CallComes(cfg, s1, t, [], Call(false, n, Lock, 0, 0));
    MoreObjs(s1, s2, t);
    s' := DoFinish(cfg, s2, t, c2);
    o := x;
    LeadsOn(cfg, s1, t, s2, s');
    FinishedFacts(cfg, s, s1, s2, s', n, t, o);
  }

  lemma Begun(cfg: Config, s: State, k: nat, n: Name)
    requires Inv(cfg, s) && Client(k) !in s.threads && ConeFree(cfg, s, n)
    ensures var s' := Do(cfg, s, Begin(k, false, n));
            && Inv(cfg, s') && Calling(s', Client(k), [], Call(false, n, Lock, 0, 0)) && ConeFree(cfg, s', n)
            && s' == s.(threads := s'.threads) && n !in s.locks && s'.threads[Client(k)].base == Caller
  {
    StepKeeps(cfg, s, Begin(k, false, n));
    hide Inv;
    StillFreeOne(cfg, s, Do(cfg, s, Begin(k, false, n)), n);
    CallingAlone(Do(cfg, s, Begin(k, false, n)), Client(k), Call(false, n, Lock, 0, 0));
  }

  lemma FinishedFacts(cfg: Config, s: State, s1: State, s2: State, s': State, n: Name, t: Tid, o: nat)
    requires s1 == s.(threads := s1.threads) && n !in s.locks
    requires s2.locks == s1.locks[n := t] && Grown(cfg, s1, s2) && OnlyWanted(cfg, s1, s2, n) && Serving(s2, n, o) && DepsUp(cfg, s2, n)
    requires s' == s2.(locks := s2.locks - {n}, threads := s2.threads[t := Thread(Caller, [])]) && t.Client?
    ensures s'.locks == s.locks && Grown(cfg, s, s') && OnlyWanted(cfg, s, s', n) && Serving(s', n, o) && DepsUp(cfg, s', n)
  {
    SameUp(cfg, s, s1);
    SameUp(cfg, s2, s');
    hide DepsUp, Up;
    forall m | Wanted(cfg, s1, n, m)
      ensures Wanted(cfg, s, n, m)
    {
      var path :| WantPath(cfg, s1, path) && path[0] == n && path[|path| - 1] == m;
      assert WantPath(cfg, s, path);
    }
  }

  lemma SameUp(cfg: Config, s: State, s': State)
    requires s' == s.(locks := s'.locks, threads := s'.threads)
    ensures forall m :: Up(s', m) <==> Up(s, m)
    ensures forall m :: DepsUp(cfg, s', m) <==> DepsUp(cfg, s, m)
  {}

  // ---- which projects ever start ---------------------------------------------------------------

  lemma {:induction false} StartedStartable(cfg: Config, starts: seq<Name>, i: nat)
    requires StartsOk(cfg, starts) && i < |starts|
    ensures Startable(cfg, starts[i])
    decreases i
  {
    var n := starts[i];
    forall d | d in cfg.deps[n]
      ensures Startable(cfg, d)
    {
      var k :| 0 <= k < |cfg.deps[n]| && cfg.deps[n][k] == d;
      assert cfg.deps[starts[i]][k] in starts[..i];
      var j :| 0 <= j < i && starts[j] == d;
      StartedStartable(cfg, starts, j);
    }
    StartableIff(cfg, n);
  }

  lemma FirstStart(cfg: Config, now: int, n: Name) returns (run: seq<Action>)
    requires Startable(cfg, n)
    ensures Feasible(cfg, Initial(now), run) && n in Exec(cfg, Initial(now), run).starts
  {
    assert After([], now - CRASH_WINDOW) == [] && Exec(cfg, Initial(now), []) == Initial(now);
    assert ConeFree(cfg, Initial(now), n);
    hide Leads, LeadsIn, Serving, Startable, ConeFree;
    var begin := Begin(0, false, n);
    var s', o := LaunchingStart(cfg, now, [], 0, n);
    var steps := LeadingRun(cfg, Do(cfg, Initial(now), begin), Client(0), s');
    run := [begin] + steps;
    Prepended(cfg, Initial(now), begin, steps);
    ServedStarted(cfg, now, run, n, o);
  }

  lemma LeadingRun(cfg: Config, s: State, t: Tid, s': State) returns (run: seq<Action>)
    requires Leads(cfg, s, t, s')
    ensures Feasible(cfg, s, run) && Exec(cfg, s, run) == s'
  {
    var n: nat :| LeadsIn(cfg, s, t, n, s');
    run := Good(t, n);
  }

  lemma ServedStarted(cfg: Config, now: int, run: seq<Action>, n: Name, o: nat)
    requires Feasible(cfg, Initial(now), run) && Serving(Exec(cfg, Initial(now), run), n, o)
    ensures n in Exec(cfg, Initial(now), run).starts
  {
    InitialOk(cfg, now);
    RunKeeps(cfg, Initial(now), run);
    assert ObjOk(Exec(cfg, Initial(now), run), o);
  }

  /** A project can be started at all exactly when it has a manifest and, recursively, all its dependencies
      can. */
  lemma StartsIffStartable(cfg: Config, now: int, n: Name)
    ensures Startable(cfg, n) <==> exists run :: Feasible(cfg, Initial(now), run) && n in Exec(cfg, Initial(now), run).starts
  {
    if Startable(cfg, n) {
      var run := FirstStart(cfg, now, n);
    }
    forall run | Feasible(cfg, Initial(now), run) && n in Exec(cfg, Initial(now), run).starts
      ensures Startable(cfg, n)
    {
      InitialOk(cfg, now);
      RunKeeps(cfg, Initial(now), run);
      hide Startable;
      var s := Exec(cfg, Initial(now), run);
      assert StartsOk(cfg, s.starts);
      var i :| 0 <= i < |s.starts| && s.starts[i] == n;
      StartedStartable(cfg, s.starts, i);
    }
  }

  /** What it means that a project is free, by the exits alone. */
  lemma FreeIff(cfg: Config, now: int, run: seq<Action>, n: Name)
    requires Feasible(cfg, Initial(now), run)
    ensures var s := Exec(cfg, Initial(now), run);
            var exits := At(s.exits, n);
            Free(s, n) <==> n !in s.locks && (|exits| < 5 || exits[|exits| - 5] <= s.now - 60 * SECOND)
  {
    var s := Exec(cfg, Initial(now), run);
    InitialOk(cfg, now);
    RunKeeps(cfg, Initial(now), run);
    assert ExitsOk(s, n);
    AgreesOpen(At(s.crashes, n), At(s.exits, n), s.now, s.now);
    ClosedIff(At(s.exits, n), s.now);
  }

  /** An open breaker closes by itself: after a minute nothing but its lock keeps a project from being started. */
  lemma BreakerCloses(cfg: Config, now: int, run: seq<Action>, n: Name, d: nat)
    requires Feasible(cfg, Initial(now), run) && d >= 60 * SECOND
    ensures var s := Exec(cfg, Initial(now), run); Free(Do(cfg, s, Tick(d)), n) <==> n !in s.locks
  {
    var s := Exec(cfg, Initial(now), run);
    InitialOk(cfg, now);
    RunKeeps(cfg, Initial(now), run);
    StepKeeps(cfg, s, Tick(d));
    var later := Do(cfg, s, Tick(d));
    assert ExitsOk(s, n) && ExitsOk(later, n);
    AgreesOpen(At(later.crashes, n), At(later.exits, n), later.now, later.now);
    ClosedIff(At(later.exits, n), later.now);
  }

  // ---- a crash ---------------------------------------------------------------------------------

  ghost predicate SameTable(s: State, s': State) {
    s'.projects == s.projects && s'.locks == s.locks && s'.now == s.now
  }

  lemma WatchDecides(cfg: Config, s: State, o: nat, clean: bool)
    requires o < |s.objs| && Watcher(o) in s.threads && s.threads[Watcher(o)] == Thread(Watch(Wait), []) && !s.objs[o].live
    ensures CanRun(cfg, s, Watcher(o))
    ensures var s', p := RunWatch(cfg, s, o, clean), s.objs[o];
            && Watcher(o) in s'.threads && |s'.objs| == |s.objs| && s'.objs[o].name == p.name
            && s'.threads[Watcher(o)] == Thread(Watch(Record(p.name in cfg.autoRestart && !p.manuallyStopped)), [])
            && s'.crashes == s.crashes && SameTable(s, s') && s'.objs[o].status == if clean then Stopped else Failed
  {}

  lemma WatchRecords(cfg: Config, s: State, o: nat, auto: bool)
    requires o < |s.objs| && Watcher(o) in s.threads && s.threads[Watcher(o)] == Thread(Watch(Record(auto)), [])
    ensures CanRun(cfg, s, Watcher(o))
    ensures var s', n := RunWatch(cfg, s, o, true), s.objs[o].name;
            && Watcher(o) in s'.threads && |s'.objs| == |s.objs| && s'.objs[o].name == n
            && s'.threads[Watcher(o)] == Thread(Watch(Check(auto)), [])
            && s'.crashes == s.crashes[n := Recorded(At(s.crashes, n), s.now, s.now)]
            && SameTable(s, s') && s'.objs[o].status == s.objs[o].status
  {}

  lemma WatchChecks(cfg: Config, s: State, o: nat, auto: bool)
    requires o < |s.objs| && Watcher(o) in s.threads && s.threads[Watcher(o)] == Thread(Watch(Check(auto)), [])
    ensures CanRun(cfg, s, Watcher(o))
    ensures var s', n := RunWatch(cfg, s, o, true), s.objs[o].name;
            && Watcher(o) in s'.threads
            && s'.threads[Watcher(o)] == Thread(Watch(if auto && !IsOpen(At(s.crashes, n), s.now) then Backoff else WatchDone), [])
            && s'.objs == s.objs && s'.crashes == s.crashes && SameTable(s, s')
  {}

  lemma WatchBacksOff(cfg: Config, s: State, o: nat)
    requires o < |s.objs| && Watcher(o) in s.threads && s.threads[Watcher(o)] == Thread(Watch(Backoff), [])
    ensures CanRun(cfg, s, Watcher(o))
    ensures var s', n := RunWatch(cfg, s, o, true), s.objs[o].name;
            && Watcher(o) in s'.threads && s'.threads[Watcher(o)].calls == [Call(false, n, Lock, 0, 0)]
            && |s'.objs| == |s.objs| && s'.crashes == s.crashes && SameTable(s, s')
  {}

  /** The process of `o` has ended, its watcher is about to notice, and nothing speaks against a restart: the
      manifest asks for it, nobody stopped it, fewer than five exits lie within the last minute, this one
      counted, and the dependencies can be brought up. */
  ghost predicate Crashed(cfg: Config, s: State, o: nat) {
    && o < |s.objs| && !s.objs[o].live && Watcher(o) in s.threads && s.threads[Watcher(o)] == Thread(Watch(Wait), [])
    && var n := s.objs[o].name;
       && n in cfg.autoRestart && !s.objs[o].manuallyStopped && Startable(cfg, n)
       && n !in s.locks && (|At(s.exits, n)| < 4 || At(s.exits, n)[|At(s.exits, n)| - 4] <= s.now - 60 * SECOND)
       && forall m :: InCone(cfg, n, m) && m != n ==> Free(s, m)
  }

  lemma WatchStepLeads(cfg: Config, s: State, o: nat)
    requires Inv(cfg, s) && CanRun(cfg, s, Watcher(o)) && s.threads[Watcher(o)].calls == []
    ensures var s' := RunWatch(cfg, s, o, true); Leads(cfg, s, Watcher(o), s') && Inv(cfg, s')
  {
    hide Inv, CanRun, RunWatch, Leads;
    LeadsOne(cfg, s, Watcher(o));
  }

  /** The state after the watcher of `o` noticed the exit, with success or not as `clean` says. */
  function Noticed(cfg: Config, s: State, o: nat, clean: bool): State
    requires CanRun(cfg, s, Watcher(o))
  {
    Do(cfg, s, Run(Watcher(o), clean))
  }

  /** The watcher notices the exit, reads the stop flag, and records the exit. */
  lemma CrashRecorded(cfg: Config, s: State, o: nat, clean: bool) returns (s': State)
    requires Inv(cfg, s) && Crashed(cfg, s, o)
    ensures CanRun(cfg, s, Watcher(o)) && |Noticed(cfg, s, o, clean).objs| == |s.objs|
    ensures Noticed(cfg, s, o, clean).objs[o].status == if clean then Stopped else Failed
    ensures var n := s.objs[o].name;
            && Leads(cfg, Noticed(cfg, s, o, clean), Watcher(o), s') && Inv(cfg, s') && |s'.objs| == |s.objs| && s'.objs[o].name == n
            && Watcher(o) in s'.threads && s'.threads[Watcher(o)] == Thread(Watch(Check(true)), [])
            && s'.crashes == s.crashes[n := Recorded(At(s.crashes, n), s.now, s.now)] && SameTable(s, s')
  {
    hide Inv, Leads, IsOpen, CanRun, RunWatch, Recorded, InCone, Startable, Free, At;
    WatchDecides(cfg, s, o, clean);
    StepKeeps(cfg, s, Run(Watcher(o), clean));
    var s1 := RunWatch(cfg, s, o, clean);
    WatchRecords(cfg, s1, o, true);
    WatchStepLeads(cfg, s1, o);
    s' := RunWatch(cfg, s1, o, true);
  }

  /** Three more steps of the watcher lead to its call of `StartProject`. */
  lemma CrashNoticed(cfg: Config, s: State, o: nat, clean: bool) returns (s': State)
    requires Inv(cfg, s) && Crashed(cfg, s, o)
    ensures CanRun(cfg, s, Watcher(o)) && o < |s.objs| && |Noticed(cfg, s, o, clean).objs| == |s.objs|
    ensures Noticed(cfg, s, o, clean).objs[o].status == if clean then Stopped else Failed
    ensures Startable(cfg, s.objs[o].name)
    ensures Leads(cfg, Noticed(cfg, s, o, clean), Watcher(o), s') && Inv(cfg, s') && |s'.objs| == |s.objs|
    ensures Calling(s', Watcher(o), [], Call(false, s.objs[o].name, Lock, 0, 0)) && ConeFree(cfg, s', s.objs[o].name)
  {
    var t, n := Watcher(o), s.objs[o].name;
    hide Inv, Leads, IsOpen, CanRun, RunWatch, Recorded, Calling, ConeFree, Free, At, Noticed, InCone, Startable;
    var s2 := CrashRecorded(cfg, s, o, clean);
    var s1 := Noticed(cfg, s, o, clean);
    RecordedClosed(cfg, s, o);
    WatchChecks(cfg, s2, o, true);
    WatchStepLeads(cfg, s2, o);
    var s3 := RunWatch(cfg, s2, o, true);
    WatchBacksOff(cfg, s3, o);
    WatchStepLeads(cfg, s3, o);
    s' := RunWatch(cfg, s3, o, true);
    LeadsOn(cfg, s1, t, s2, s3);
    LeadsOn(cfg, s1, t, s3, s');
    FreeAfterCrash(cfg, s, s', o);
    CallingAlone(s', t, Call(false, n, Lock, 0, 0));
  }

  lemma CallingAlone(s: State, t: Tid, c: Call)
    requires t in s.threads && s.threads[t].calls == [c]
    ensures Calling(s, t, [], c)
  {}

  lemma RecordedClosed(cfg: Config, s: State, o: nat)
    requires Inv(cfg, s) && Crashed(cfg, s, o)
    ensures !IsOpen(Recorded(At(s.crashes, s.objs[o].name), s.now, s.now), s.now)
  {
    var n := s.objs[o].name;
    assert ExitsOk(s, n);
    RecordedAgrees(At(s.crashes, n), At(s.exits, n), s.now, s.now, s.now);
    AgreesOpen(Recorded(At(s.crashes, n), s.now, s.now), At(s.exits, n) + [s.now], s.now, s.now);
    ClosedIff(At(s.exits, n) + [s.now], s.now);
  }

  lemma FreeAfterCrash(cfg: Config, s: State, s': State, o: nat)
    requires Inv(cfg, s) && Crashed(cfg, s, o)
    requires var n := s.objs[o].name; s'.crashes == s.crashes[n := Recorded(At(s.crashes, n), s.now, s.now)]
    requires SameTable(s, s')
    ensures ConeFree(cfg, s', s.objs[o].name)
  {
    hide Inv, IsOpen, Recorded, InCone, Startable;
    RecordedClosed(cfg, s, o);
    forall m | InCone(cfg, s.objs[o].name, m)
      ensures Free(s', m)
    {
      if m != s.objs[o].name { assert Free(s, m); }
    }
  }

  /** The exit of `o` is noticed, a clean one or a failure, and then steps of its watcher alone lead to `s'`,
      where `x` is a new live process of the same project, launched by that watcher and registered in the
      table, with all its dependencies up. */
  ghost predicate ComesBack(cfg: Config, s: State, o: nat, clean: bool, s': State, x: nat) {
    && CanRun(cfg, s, Watcher(o)) && o < |s.objs| <= |Noticed(cfg, s, o, clean).objs|
    && Noticed(cfg, s, o, clean).objs[o].status == (if clean then Stopped else Failed)
    && Leads(cfg, Noticed(cfg, s, o, clean), Watcher(o), s')
    && x >= |s.objs| && Serving(s', s.objs[o].name, x) && s'.objs[x].parent == Some(o)
    && DepsUp(cfg, s', s.objs[o].name)
  }

  /** Crashes still get restarted, and so do exits with success. */
  lemma CrashComesBack(cfg: Config, now: int, run: seq<Action>, o: nat, clean: bool)
    requires Feasible(cfg, Initial(now), run) && Crashed(cfg, Exec(cfg, Initial(now), run), o)
    ensures exists s', x :: ComesBack(cfg, Exec(cfg, Initial(now), run), o, clean, s', x)
  {
    InitialOk(cfg, now);
    RunKeeps(cfg, Initial(now), run);
    hide *;
    var s', x := Comeback(cfg, Exec(cfg, Initial(now), run), o, clean);
  }

  /** In particular the first crashes do: with no lock held and no project it depends on having exited five
      times, a project that exited fewer than four times before comes back. */
  lemma FirstCrashesComeBack(cfg: Config, now: int, run: seq<Action>, o: nat, clean: bool)
    requires Feasible(cfg, Initial(now), run)
    requires var s := Exec(cfg, Initial(now), run);
             && o < |s.objs| && !s.objs[o].live && Watcher(o) in s.threads && s.threads[Watcher(o)] == Thread(Watch(Wait), [])
             && s.objs[o].name in cfg.autoRestart && !s.objs[o].manuallyStopped && Startable(cfg, s.objs[o].name)
             && s.locks == map[] && |At(s.exits, s.objs[o].name)| < 4
             && forall m :: InCone(cfg, s.objs[o].name, m) ==> |At(s.exits, m)| < 5
    ensures exists s', x :: ComesBack(cfg, Exec(cfg, Initial(now), run), o, clean, s', x)
  {
    var s := Exec(cfg, Initial(now), run);
    forall m | InCone(cfg, s.objs[o].name, m)
      ensures Free(s, m)
    {
      FreeIff(cfg, now, run, m);
    }
    hide Startable, InCone, Free, Feasible, Exec, ComesBack;
    CrashComesBack(cfg, now, run, o, clean);
  }

  lemma Comeback(cfg: Config, s: State, o: nat, clean: bool) returns (s': State, x: nat)
    requires Inv(cfg, s) && Crashed(cfg, s, o)
    ensures ComesBack(cfg, s, o, clean, s', x)
  {
    hide Inv, Leads, Calling, ConeFree, Startable, Alone, Grown, CanRun, Noticed, Crashed, Serving, DepsUp, OnlyWanted;
    var mid := CrashNoticed(cfg, s, o, clean);
    var c;
    s', c, x := CallComes(cfg, mid, Watcher(o), [], Call(false, s.objs[o].name, Lock, 0, 0));
    LeadsOn(cfg, Noticed(cfg, s, o, clean), Watcher(o), mid, s');
    ServingUp(s', s.objs[o].name, x);
  }
}
