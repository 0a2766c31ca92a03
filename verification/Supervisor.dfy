/** The project supervisor as interleaved steps. Each step is one critical section of
    `StartProject`, `stopProject`, `StopProject` or `watchProcess`, an exit of a process on
    its own, or the passing of time. Named locks are identified by the project name:
    `getNamedLock` hands out one mutex per name and never drops it. */
module Supervisor {
  import opened Wrappers
  import opened Timestamps
  import opened CircuitBreaker

  type Name = string

  /** The manifests on disk: `depends_on` for every project that has one, and `auto_restart`. */
  datatype Config = Config(deps: map<Name, seq<Name>>, autoRestart: set<Name>)

  ghost predicate Acyclic(cfg: Config, rank: Name -> nat) {
    forall n, k :: n in cfg.deps && 0 <= k < |cfg.deps[n]| ==> rank(cfg.deps[n][k]) < rank(n)
  }

  datatype Status = Running | Stopped | Failed

  /** One `Project` object. `live` holds from `cmd.Start` until the process exits or
      `stopProject` has killed it. The second line of fields is run history, read by no step. */
  datatype Project = Project(
    name: Name, status: Status, live: bool, manuallyStopped: bool,
    parent: Option<nat>, admittedAt: int, seen: nat, startedAt: int,
    flagRead: Option<bool>, exitIndex: Option<nat>, restarts: nat)

  datatype Pc =
    | Lock
    | Circuit
    | Lookup
    | Flag(obj: nat)
    | Kill(obj: nat)
    | Mark(obj: nat)
    | ReadConfig
    | Deps(k: nat)
    | DepCheck(k: nat, dep: nat)
    | DepCall(k: nat)
    | Launch
    | Publish(obj: nat)
    | Unlock(ok: bool)

  /** A call of `StopProject` (`stop`) or of `StartProject`, in progress. */
  datatype Call = Call(stop: bool, name: Name, pc: Pc, admittedAt: int, seen: nat)

  datatype WatchPc = Wait | Record(auto: bool) | Check(auto: bool) | Backoff | Restart | MarkFailed | WatchDone

  datatype Tid = Client(k: nat) | Watcher(obj: nat)

  datatype Base = Caller | Watch(pc: WatchPc)

  /** A goroutine: what it does outside calls, and its stack of calls, innermost last. */
  datatype Thread = Thread(base: Base, calls: seq<Call>)

  datatype State = State(
    projects: map<Name, nat>, locks: map<Name, Tid>, crashes: map<Name, seq<int>>,
    objs: seq<Project>, threads: map<Tid, Thread>, now: int,
    exits: map<Name, seq<int>>, starts: seq<Name>)

  function Initial(now: int): State {
    State(map[], map[], map[], [], map[], now, map[], [])
  }

  datatype Action =
    | Begin(k: nat, stop: bool, name: Name)
    | Run(t: Tid, choice: bool)
    | Exit(obj: nat)
    | Tick(d: nat)

  function Top(th: Thread): Call
    requires th.calls != []
  {
    th.calls[|th.calls| - 1]
  }

  function Goto(th: Thread, pc: Pc): Thread
    requires th.calls != []
  {
    th.(calls := th.calls[|th.calls| - 1 := Top(th).(pc := pc)])
  }

  /** At a step on an object of the project itself. */
  predicate OnObj(pc: Pc) {
    pc.Flag? || pc.Kill? || pc.Mark? || pc.Publish?
  }

  /** Working through the dependencies. */
  predicate OnDep(pc: Pc) {
    pc.Deps? || pc.DepCheck? || pc.DepCall?
  }

  /** The pc refers to objects and manifests that exist. */
  predicate PcOk(cfg: Config, s: State, c: Call) {
    && (OnObj(c.pc) ==> c.pc.obj < |s.objs| && s.objs[c.pc.obj].name == c.name)
    && (OnDep(c.pc) || c.pc.Launch? ==> c.name in cfg.deps)
    && (OnDep(c.pc) ==> c.pc.k <= |cfg.deps[c.name]| && (!c.pc.Deps? ==> c.pc.k < |cfg.deps[c.name]|))
    && (c.pc.DepCheck? ==> c.pc.dep < |s.objs| && s.objs[c.pc.dep].name == cfg.deps[c.name][c.pc.k])
    && (c.stop ==> !c.pc.Circuit? && !c.pc.ReadConfig? && !OnDep(c.pc) && !c.pc.Launch? && !c.pc.Publish?)
  }

  /** Whether thread `t` can take its next step. Only a held lock or a live process can block it. */
  predicate CanRun(cfg: Config, s: State, t: Tid) {
    && t in s.threads
    && var th := s.threads[t];
       if th.calls != [] then
         && PcOk(cfg, s, Top(th))
         && !Top(th).pc.DepCall?
         && (Top(th).pc == Lock ==> Top(th).name !in s.locks)
         && (t.Watcher? ==> t.obj < |s.objs|)
       else
         && th.base.Watch? && t.Watcher? && t.obj < |s.objs|
         && !th.base.pc.Restart? && !th.base.pc.WatchDone?
         && (th.base.pc == Wait ==> !s.objs[t.obj].live)
  }

  predicate Can(cfg: Config, s: State, a: Action) {
    match a
    case Begin(k, _, _) => Client(k) !in s.threads
    case Run(t, _) => CanRun(cfg, s, t)
    case Exit(o) => o < |s.objs|
    case Tick(_) => true
  }

  /** The thread after its innermost call returns `ok` to whoever made it. */
  function Return(th: Thread, ok: bool): Thread
    requires th.calls != []
  {
    var rest := th.(calls := th.calls[..|th.calls| - 1]);
    if rest.calls != [] then
      match Top(rest).pc
      case DepCall(k) => Goto(rest, if ok then Deps(k + 1) else Unlock(false))
      case _ => rest
    else if rest.base == Watch(Restart) then
      rest.(base := Watch(if ok then WatchDone else MarkFailed))
    else
      rest
  }

  /** Thread `t` with its innermost call replaced. */
  function Advance(s: State, t: Tid, c: Call): State
    requires t in s.threads && s.threads[t].calls != []
  {
    var th := s.threads[t];
    s.(threads := s.threads[t := th.(calls := th.calls[|th.calls| - 1 := c])])
  }

  /** `isCircuitOpen`: refused, or admitted at this instant. */
  function AskCircuit(s: State, c: Call): Call {
    if IsOpen(At(s.crashes, c.name), s.now) then c.(pc := Unlock(false))
    else c.(pc := Lookup, admittedAt := s.now, seen := |At(s.exits, c.name)|)
  }

  /** `StopProject` stops what is registered; `StartProject` only what is running. */
  function LookUp(s: State, c: Call): Call {
    if c.name !in s.projects then c.(pc := if c.stop then Unlock(false) else ReadConfig)
    else
      var o := s.projects[c.name];
      if c.stop || (o < |s.objs| && s.objs[o].status == Running) then c.(pc := Flag(o)) else c.(pc := ReadConfig)
  }

  function Launched(s: State, t: Tid, c: Call): Project
    requires t in s.threads
  {
    var parent := if t.Watcher? && |s.threads[t].calls| == 1 then Some(t.obj) else None;
    Project(c.name, Running, true, false, parent, c.admittedAt, c.seen, s.now, None, None, 0)
  }

  /** One step of `StartProject`, `StopProject` or the `stopProject` inside them. */
  function RunCall(cfg: Config, s: State, t: Tid, choice: bool): State
    requires CanRun(cfg, s, t) && s.threads[t].calls != []
  {
    var th := s.threads[t];
    var c := Top(th);
    match c.pc
    case Lock => Advance(s.(locks := s.locks[c.name := t]), t, c.(pc := if c.stop then Lookup else Circuit))
    case Circuit => Advance(s, t, AskCircuit(s, c))
    case Lookup => Advance(s, t, LookUp(s, c))
    case Flag(o) => Advance(s.(objs := s.objs[o := s.objs[o].(manuallyStopped := true)]), t, c.(pc := Kill(o)))
    case Kill(o) => Advance(s.(objs := s.objs[o := s.objs[o].(live := false)]), t, c.(pc := Mark(o)))
    case Mark(o) =>
      Advance(s.(objs := s.objs[o := s.objs[o].(status := Stopped)]), t, c.(pc := if c.stop then Unlock(true) else ReadConfig))
    case ReadConfig => Advance(s, t, c.(pc := if c.name in cfg.deps && choice then Deps(0) else Unlock(false)))
    case Deps(k) =>
      var deps := cfg.deps[c.name];
      if k == |deps| then Advance(s, t, c.(pc := Launch))
      else if deps[k] in s.projects && s.projects[deps[k]] < |s.objs| && s.objs[s.projects[deps[k]]].name == deps[k] then
        Advance(s, t, c.(pc := DepCheck(k, s.projects[deps[k]])))
      else s.(threads := s.threads[t := CallDep(th, k, deps[k])])
    case DepCheck(k, d) =>
      if s.objs[d].status == Running then Advance(s, t, c.(pc := Deps(k + 1)))
      else s.(threads := s.threads[t := CallDep(th, k, cfg.deps[c.name][k])])
    case Launch =>
      if choice then
        Advance(s.(objs := s.objs + [Launched(s, t, c)], starts := s.starts + [c.name]), t, c.(pc := Publish(|s.objs|)))
      else Advance(s, t, c.(pc := Unlock(false)))
    case Publish(o) =>
      var s1 := Advance(s, t, c.(pc := Unlock(true)));
      s1.(projects := s.projects[c.name := o], threads := s1.threads[Watcher(o) := Thread(Watch(Wait), [])])
    case Unlock(ok) => s.(locks := s.locks - {c.name}, threads := s.threads[t := Return(th, ok)])
    case DepCall(_) => s
  }

  function CallDep(th: Thread, k: nat, dep: Name): Thread
    requires th.calls != []
  {
    var waiting := Goto(th, DepCall(k));
    waiting.(calls := waiting.calls + [Call(false, dep, Lock, 0, 0)])
  }

  /** The threads with watcher `t` moved on to `pc`. */
  function Goes(s: State, t: Tid, pc: WatchPc): map<Tid, Thread> {
    s.threads[t := Thread(Watch(pc), [])]
  }

  /** One step of `watchProcess` outside the `StartProject` it may call. For `Wait`, `choice`
      tells a clean exit from a failure. */
  function RunWatch(cfg: Config, s: State, o: nat, choice: bool): State
    requires CanRun(cfg, s, Watcher(o)) && s.threads[Watcher(o)].calls == []
  {
    var t := Watcher(o);
    var p := s.objs[o];
    match s.threads[t].base.pc
    case Wait =>
      var auto := p.name in cfg.autoRestart && !p.manuallyStopped;
      s.(objs := s.objs[o := p.(status := if choice then Stopped else Failed, flagRead := Some(p.manuallyStopped))],
         threads := Goes(s, t, Record(auto)))
    case Record(auto) =>
      s.(crashes := s.crashes[p.name := Recorded(At(s.crashes, p.name), s.now, s.now)],
         exits := s.exits[p.name := At(s.exits, p.name) + [s.now]],
         objs := s.objs[o := p.(exitIndex := Some(|At(s.exits, p.name)|))],
         threads := Goes(s, t, Check(auto)))
    case Check(auto) =>
      s.(threads := Goes(s, t, if auto && !IsOpen(At(s.crashes, p.name), s.now) then Backoff else WatchDone))
    case Backoff =>
      s.(objs := s.objs[o := p.(restarts := p.restarts + 1)],
         threads := s.threads[t := Thread(Watch(Restart), [Call(false, p.name, Lock, 0, 0)])])
    case MarkFailed =>
      s.(objs := s.objs[o := p.(status := Failed)], threads := Goes(s, t, WatchDone))
    case Restart => s
    case WatchDone => s
  }

  function Do(cfg: Config, s: State, a: Action): State
    requires Can(cfg, s, a)
  {
    match a
    case Begin(k, stop, name) =>
      s.(threads := s.threads[Client(k) := Thread(Caller, [Call(stop, name, Lock, 0, 0)])])
    case Run(t, choice) =>
      if s.threads[t].calls != [] then RunCall(cfg, s, t, choice) else RunWatch(cfg, s, t.obj, choice)
    case Exit(o) => s.(objs := s.objs[o := s.objs[o].(live := false)])
    case Tick(d) => s.(now := s.now + d)
  }

  predicate Feasible(cfg: Config, s: State, run: seq<Action>)
    decreases |run|
  {
    run == [] || (Can(cfg, s, run[0]) && Feasible(cfg, Do(cfg, s, run[0]), run[1..]))
  }

  function Exec(cfg: Config, s: State, run: seq<Action>): State
    requires Feasible(cfg, s, run)
    decreases |run|
  {
    if run == [] then s else Exec(cfg, Do(cfg, s, run[0]), run[1..])
  }
}
