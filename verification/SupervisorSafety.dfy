/** What every interleaving of the project supervisor keeps. */
module SupervisorSafety {
  import opened Wrappers
  import opened Timestamps
  import opened CircuitBreaker
  import opened Supervisor

  // ---- the invariant ------------------------------------------------------

  /** A new object of `n` launched by the lock holder but not yet in the table. */
  ghost predicate Publishing(s: State, n: Name, o: nat) {
    && n in s.locks && s.locks[n] in s.threads
    && var th := s.threads[s.locks[n]];
       th.calls != [] && Top(th).name == n && Top(th).pc == Publish(o)
  }

  ghost predicate Owned(s: State, n: Name, o: nat) {
    (n in s.projects && s.projects[n] == o) || Publishing(s, n, o)
  }

  ghost predicate OnlyLive(s: State, n: Name, o: nat) {
    forall x :: 0 <= x < |s.objs| && s.objs[x].live && s.objs[x].name == n ==> x == o
  }

  ghost predicate NoneLive(s: State, n: Name) {
    forall x :: 0 <= x < |s.objs| && s.objs[x].name == n ==> !s.objs[x].live
  }

  /** The circuit was closed at `at`, when `seen` exits of `n` had been recorded. */
  ghost predicate Admitted(s: State, n: Name, at: int, seen: nat) {
    && at <= s.now
    && seen <= |At(s.exits, n)|
    && !IsOpen(At(s.exits, n)[..seen], at)
  }

  /** `StartProject` between stopping the old process and launching the new one. */
  predicate Cleared(pc: Pc) {
    pc.Mark? || pc.ReadConfig? || OnDep(pc) || pc.Launch?
  }

  ghost predicate LiveOk(s: State, c: Call) {
    && (c.pc.Flag? || c.pc.Kill? ==> c.name in s.projects && s.projects[c.name] == c.pc.obj)
    && (Cleared(c.pc) ==> NoneLive(s, c.name))
    && (c.pc.Publish? ==> OnlyLive(s, c.name, c.pc.obj) && Watcher(c.pc.obj) !in s.threads)
  }

  ghost predicate DepsStarted(cfg: Config, starts: seq<Name>, n: Name, k: nat)
    requires n in cfg.deps && k <= |cfg.deps[n]|
  {
    forall j :: 0 <= j < k ==> cfg.deps[n][j] in starts
  }

  ghost predicate DepsOk(cfg: Config, s: State, c: Call)
    requires PcOk(cfg, s, c)
  {
    && (OnDep(c.pc) ==> DepsStarted(cfg, s.starts, c.name, c.pc.k))
    && (c.pc.Launch? ==> DepsStarted(cfg, s.starts, c.name, |cfg.deps[c.name]|))
    && (c.pc.Publish? || (c.pc == Unlock(true) && !c.stop) ==> c.name in s.starts)
  }

  predicate PastCircuit(c: Call) {
    !c.stop && !c.pc.Lock? && !c.pc.Circuit? && !c.pc.Unlock?
  }

  ghost predicate CallOk(cfg: Config, s: State, t: Tid, c: Call) {
    && PcOk(cfg, s, c)
    && (c.pc != Lock ==> c.name in s.locks && s.locks[c.name] == t)
    && LiveOk(s, c)
    && DepsOk(cfg, s, c)
    && (PastCircuit(c) ==> Admitted(s, c.name, c.admittedAt, c.seen))
  }

  /** Call `i` was made by the call below it, for the dependency that one waits for. */
  ghost predicate Link(cfg: Config, calls: seq<Call>, i: nat)
    requires 0 < i < |calls|
  {
    var callee, caller := calls[i], calls[i - 1];
    && caller.pc.DepCall? && caller.name in cfg.deps
    && caller.pc.k < |cfg.deps[caller.name]|
    && callee.name == cfg.deps[caller.name][caller.pc.k]
    && !callee.stop
  }

  /** Callers wait in `DepCall` for the call above them, made for that dependency. No two calls of a stack
      hold the same lock: a second one for the same project never gets past it. */
  ghost predicate StackOk(cfg: Config, calls: seq<Call>) {
    && (calls != [] ==> !calls[|calls| - 1].pc.DepCall?)
    && (forall i :: 0 < i < |calls| ==> Link(cfg, calls, i))
    && forall i, j :: 0 <= i < j < |calls| && calls[j].pc != Lock ==> calls[i].name != calls[j].name
  }

  /** What the watcher remembers of its decision is what the manifest and the flag said. */
  predicate AutoOk(cfg: Config, p: Project, pc: WatchPc) {
    pc.Record? || pc.Check? ==> (pc.auto <==> p.name in cfg.autoRestart && p.flagRead == Some(false))
  }

  ghost predicate WatchOk(cfg: Config, s: State, o: nat, pc: WatchPc, calls: seq<Call>) {
    && o < |s.objs|
    && var p := s.objs[o];
       && (calls != [] <==> pc == Restart)
       && (calls != [] ==> calls[0].name == p.name && !calls[0].stop)
       && (pc == Wait <==> p.flagRead == None)
       && (pc != Wait ==> !p.live)
       && AutoOk(cfg, p, pc)
       && (pc == Backoff || pc == Restart || pc == MarkFailed ==> p.flagRead == Some(false))
       && (pc == Wait || pc.Record? || pc.Check? || pc == Backoff ==> p.restarts == 0)
       && (pc == Wait || pc.Record? <==> p.exitIndex == None)
       && (calls != [] && PastCircuit(calls[0]) ==> p.exitIndex.value < calls[0].seen)
  }

  ghost predicate ThreadOk(cfg: Config, s: State, t: Tid, th: Thread) {
    && StackOk(cfg, th.calls)
    && (forall i :: 0 <= i < |th.calls| ==> CallOk(cfg, s, t, th.calls[i]))
    && match t
       case Client(_) => th.base == Caller
       case Watcher(o) => th.base.Watch? && WatchOk(cfg, s, o, th.base.pc, th.calls)
  }

  ghost predicate ObjOk(s: State, o: nat)
    requires o < |s.objs|
  {
    var p := s.objs[o];
    && (p.live ==> Owned(s, p.name, o))
    && (p.status != Running ==> !p.live)
    && p.name in s.starts
    && (Watcher(o) !in s.threads ==> p.flagRead == None && p.restarts == 0 && p.exitIndex == None)
    && p.restarts <= 1
    && (p.restarts > 0 ==> p.flagRead == Some(false))
    && Admitted(s, p.name, p.admittedAt, p.seen)
    && p.admittedAt <= p.startedAt <= s.now
    && (p.exitIndex.Some? ==>
         && p.seen <= p.exitIndex.value < |At(s.exits, p.name)|
         && p.startedAt <= At(s.exits, p.name)[p.exitIndex.value])
    && (p.parent.Some? ==>
         && p.parent.value < o
         && s.objs[p.parent.value].name == p.name
         && s.objs[p.parent.value].exitIndex.Some?
         && s.objs[p.parent.value].exitIndex.value < p.seen)
  }

  ghost predicate Holds(th: Thread, n: Name) {
    exists i :: 0 <= i < |th.calls| && th.calls[i].name == n && th.calls[i].pc != Lock
  }

  ghost predicate LocksOk(s: State) {
    forall n :: n in s.locks ==> s.locks[n] in s.threads && Holds(s.threads[s.locks[n]], n)
  }

  ghost predicate ExitsOk(s: State, n: Name) {
    && Agrees(At(s.crashes, n), At(s.exits, n), s.now)
    && Sorted(At(s.exits, n))
    && forall i :: 0 <= i < |At(s.exits, n)| ==> At(s.exits, n)[i] <= s.now
  }

  /** Every start has a manifest and is preceded by a start of each direct dependency. */
  ghost predicate StartsOk(cfg: Config, starts: seq<Name>) {
    && (forall i :: 0 <= i < |starts| ==> starts[i] in cfg.deps)
    && forall i, k :: 0 <= i < |starts| && starts[i] in cfg.deps && 0 <= k < |cfg.deps[starts[i]]| ==>
      cfg.deps[starts[i]][k] in starts[..i]
  }

  ghost predicate TableOk(s: State) {
    forall n :: n in s.projects ==> s.projects[n] < |s.objs| && s.objs[s.projects[n]].name == n
  }

  ghost predicate ObjsOk(s: State) {
    forall o :: 0 <= o < |s.objs| ==> ObjOk(s, o)
  }

  ghost predicate Inv(cfg: Config, s: State) {
    && TableOk(s)
    && LocksOk(s)
    && StartsOk(cfg, s.starts)
    && (forall n :: ExitsOk(s, n))
    && ObjsOk(s)
    && (forall t :: t in s.threads ==> ThreadOk(cfg, s, t, s.threads[t]))
  }

  // ---- frames ---------------------------------------------------------------

  /** What only grows, and what is fixed once an object exists. */
  ghost predicate Grows(s: State, s': State) {
    && |s.objs| <= |s'.objs|
    && (forall o :: 0 <= o < |s.objs| ==>
         && s'.objs[o].name == s.objs[o].name
         && s'.objs[o].parent == s.objs[o].parent
         && s'.objs[o].admittedAt == s.objs[o].admittedAt
         && s'.objs[o].seen == s.objs[o].seen
         && s'.objs[o].startedAt == s.objs[o].startedAt
         && (s'.objs[o].live ==> s.objs[o].live)
         && (s.objs[o].exitIndex.Some? ==> s'.objs[o].exitIndex == s.objs[o].exitIndex))
    && s.starts <= s'.starts
    && s.now <= s'.now
    && (forall n :: At(s.exits, n) <= At(s'.exits, n))
  }

  /** The step did not act for `n`: no new object, table entry or lock change. */
  ghost predicate Same(s: State, s': State, n: Name) {
    && (forall o :: |s.objs| <= o < |s'.objs| ==> s'.objs[o].name != n)
    && (forall o: nat :: o < |s.objs| && s.objs[o].name == n && Watcher(o) in s'.threads ==> Watcher(o) in s.threads)
    && SameEntry(s, s', n)
    && (n in s.locks <==> n in s'.locks)
    && (n in s.locks ==> s'.locks[n] == s.locks[n])
  }

  ghost predicate SameEntry(s: State, s': State, n: Name) {
    && (n in s.projects <==> n in s'.projects)
    && (n in s.projects ==> s'.projects[n] == s.projects[n])
  }

  lemma AdmittedFrame(s: State, s': State, n: Name, at: int, seen: nat)
    requires Grows(s, s') && Admitted(s, n, at, seen)
    ensures Admitted(s', n, at, seen)
  {
    assert At(s.exits, n) <= At(s'.exits, n);
    assert At(s'.exits, n)[..seen] == At(s.exits, n)[..seen];
  }

  lemma CallFrame(cfg: Config, s: State, s': State, t: Tid, c: Call)
    requires Grows(s, s') && (c.pc != Lock ==> Same(s, s', c.name))
    requires CallOk(cfg, s, t, c)
    ensures CallOk(cfg, s', t, c)
  {
    if PastCircuit(c) {
      AdmittedFrame(s, s', c.name, c.admittedAt, c.seen);
    }
  }

  /** An object the step left alone, of a name whose table entry it left alone. */
  lemma ObjFrame(s: State, s': State, o: nat)
    requires o < |s.objs| && ObjOk(s, o)
    requires Grows(s, s') && SameEntry(s, s', s.objs[o].name) && s'.objs[o] == s.objs[o]
    requires s.objs[o].live && Publishing(s, s.objs[o].name, o) ==> Publishing(s', s.objs[o].name, o)
    requires Watcher(o) in s.threads ==> Watcher(o) in s'.threads
    ensures ObjOk(s', o)
  {
    AdmittedFrame(s, s', s.objs[o].name, s.objs[o].admittedAt, s.objs[o].seen);
    assert At(s.exits, s.objs[o].name) <= At(s'.exits, s.objs[o].name);
  }

  /** What a step of call `c` of thread `t` leaves to the rest of the system. */
  ghost predicate ActsFor(s: State, s': State, t: Tid, m: Name) {
    && Grows(s, s')
    && (forall n :: n != m ==> Same(s, s', n))
    && (forall o :: 0 <= o < |s.objs| && s.objs[o].name != m ==> s'.objs[o] == s.objs[o])
    && (forall u :: u in s.threads && u != t ==> u in s'.threads && s'.threads[u] == s.threads[u])
    && s'.crashes == s.crashes && s'.exits == s.exits && s'.now == s.now
    && (forall o :: 0 <= o < |s.objs| ==>
         && s'.objs[o].flagRead == s.objs[o].flagRead
         && s'.objs[o].restarts == s.objs[o].restarts
         && s'.objs[o].exitIndex == s.objs[o].exitIndex)
  }

  /** Every thread but the one that moved is still fine. */
  lemma OthersOk(cfg: Config, s: State, s': State, t: Tid, m: Name, u: Tid)
    requires ActsFor(s, s', t, m)
    requires m in s.locks ==> s.locks[m] == t
    requires u in s.threads && u != t && ThreadOk(cfg, s, u, s.threads[u])
    ensures ThreadOk(cfg, s', u, s.threads[u])
  {
    var th := s.threads[u];
    forall i | 0 <= i < |th.calls|
      ensures CallOk(cfg, s', u, th.calls[i])
    {
      CallFrame(cfg, s, s', u, th.calls[i]);
    }
  }

  /** The callers below the innermost call of the thread that moved are still fine. */
  lemma BelowOk(cfg: Config, s: State, s': State, t: Tid, i: nat)
    requires t in s.threads && ThreadOk(cfg, s, t, s.threads[t]) && i < |s.threads[t].calls| - 1
    requires Top(s.threads[t]).pc == Lock ==> Top(s.threads[t]).name !in s.locks
    requires ActsFor(s, s', t, Top(s.threads[t]).name)
    ensures CallOk(cfg, s', t, s.threads[t].calls[i])
    ensures s.threads[t].calls[i].name != Top(s.threads[t]).name
  {
    var th := s.threads[t];
    assert Link(cfg, th.calls, i + 1) && CallOk(cfg, s, t, th.calls[i]);
    CallFrame(cfg, s, s', t, th.calls[i]);
  }

  /** Objects of other names. */
  lemma OtherObjOk(s: State, s': State, t: Tid, o: nat)
    requires t in s.threads && s.threads[t].calls != []
    requires ActsFor(s, s', t, Top(s.threads[t]).name)
    requires t in s'.threads
    requires o < |s.objs| && ObjOk(s, o) && s.objs[o].name != Top(s.threads[t]).name
    ensures ObjOk(s', o)
  {
    assert Same(s, s', s.objs[o].name);
    ObjFrame(s, s', o);
  }

  lemma LocksStillOk(s: State, s': State, t: Tid, m: Name)
    requires LocksOk(s) && t in s.threads && t in s'.threads && s.threads[t].calls != []
    requires forall u :: u in s.threads && u != t ==> u in s'.threads && s'.threads[u] == s.threads[u]
    requires forall n :: n != m ==> Same(s, s', n)
    requires Top(s.threads[t]).name == m
    requires m in s'.locks ==> s'.locks[m] == t && Holds(s'.threads[t], m)
    requires forall i :: 0 <= i < |s.threads[t].calls| - 1 ==> Holds(s'.threads[t], s.threads[t].calls[i].name)
    ensures LocksOk(s')
  {
    forall n | n in s'.locks && n != m
      ensures s'.locks[n] in s'.threads && Holds(s'.threads[s'.locks[n]], n)
    {
      assert Same(s, s', n);
      var u := s.locks[n];
      var i :| 0 <= i < |s.threads[u].calls| && s.threads[u].calls[i].name == n && s.threads[u].calls[i].pc != Lock;
    }
  }

  /** The stack of the thread that moved, its innermost call replaced by `c`. */
  lemma OwnStackOk(cfg: Config, s: State, s': State, t: Tid, c: Call)
    requires t in s.threads && ThreadOk(cfg, s, t, s.threads[t]) && s.threads[t].calls != []
    requires var was := Top(s.threads[t]); was.name == c.name && was.stop == c.stop && !c.pc.DepCall? && c.pc != Lock
    requires Top(s.threads[t]).pc == Lock ==> c.name !in s.locks
    requires ActsFor(s, s', t, c.name)
    requires t in s'.threads && s'.threads[t] == s.threads[t].(calls := s.threads[t].calls[|s.threads[t].calls| - 1 := c])
    requires CallOk(cfg, s', t, c)
    ensures StackOk(cfg, s'.threads[t].calls)
    ensures forall i :: 0 <= i < |s'.threads[t].calls| ==> CallOk(cfg, s', t, s'.threads[t].calls[i])
    ensures forall i :: 0 <= i < |s.threads[t].calls| - 1 ==> Holds(s'.threads[t], s.threads[t].calls[i].name)
    ensures Holds(s'.threads[t], c.name)
  {
    hide Grows;
    hide CallOk;
    var th, th' := s.threads[t], s'.threads[t];
    var last := |th.calls| - 1;
    forall i | 0 <= i < last
      ensures CallOk(cfg, s', t, th'.calls[i]) && Holds(th', th.calls[i].name)
    {
      BelowOk(cfg, s, s', t, i);
      assert Link(cfg, th.calls, i + 1);
      assert th'.calls[i] == th.calls[i];
    }
    forall i | 0 < i < |th'.calls|
      ensures Link(cfg, th'.calls, i)
    {
      assert Link(cfg, th.calls, i);
    }
    assert th'.calls[last] == c;
    forall i, j | 0 <= i < j < |th'.calls| && th'.calls[j].pc != Lock
      ensures th'.calls[i].name != th'.calls[j].name
    {
      assert th'.calls[i].name == th.calls[i].name;
      if j == last {
        BelowOk(cfg, s, s', t, i);
      }
    }
  }

  /** The objects, exits and other threads after a step that acted for `m` only. */
  lemma RestOk(cfg: Config, s: State, s': State, t: Tid, m: Name)
    requires Inv(cfg, s) && t in s.threads && s.threads[t].calls != [] && t in s'.threads
    requires m == Top(s.threads[t]).name && (m in s.locks ==> s.locks[m] == t)
    requires ActsFor(s, s', t, m)
    requires forall o :: 0 <= o < |s'.objs| && s'.objs[o].name == m ==> ObjOk(s', o)
    requires forall u :: u in s'.threads && u !in s.threads ==> ThreadOk(cfg, s', u, s'.threads[u])
    ensures forall o :: 0 <= o < |s'.objs| ==> ObjOk(s', o)
    ensures forall n :: ExitsOk(s', n)
    ensures forall u :: u in s'.threads && u != t ==> ThreadOk(cfg, s', u, s'.threads[u])
  {
    forall o | 0 <= o < |s'.objs|
      ensures ObjOk(s', o)
    {
      if s'.objs[o].name != m {
        assert Same(s, s', s'.objs[o].name);
        OtherObjOk(s, s', t, o);
      }
    }
    forall u | u in s'.threads && u != t
      ensures ThreadOk(cfg, s', u, s'.threads[u])
    {
      if u in s.threads {
        OthersOk(cfg, s, s', t, m, u);
      }
    }
    forall n
      ensures ExitsOk(s', n)
    {
      assert ExitsOk(s, n);
    }
  }

  /** Step to `s'` only moves the innermost call of `t` on to `c`, and possibly acts for its project. */
  ghost predicate Moves(cfg: Config, s: State, s': State, t: Tid, c: Call)
    requires t in s.threads && s.threads[t].calls != []
  {
    && (var was := Top(s.threads[t]);
        was.name == c.name && was.stop == c.stop && !c.pc.DepCall? && c.pc != Lock && (was.pc == Lock ==> c.name !in s.locks))
    && ActsFor(s, s', t, c.name)
    && (c.name in s.locks ==> s.locks[c.name] == t)
    && c.name in s'.locks && s'.locks[c.name] == t
    && t in s'.threads && s'.threads[t] == s.threads[t].(calls := s.threads[t].calls[|s.threads[t].calls| - 1 := c])
    && CallOk(cfg, s', t, c)
    && (t.Watcher? && |s.threads[t].calls| == 1 && PastCircuit(c) && t.obj < |s.objs| && s.objs[t.obj].exitIndex.Some?
        ==> s.objs[t.obj].exitIndex.value < c.seen)
  }

  /** What it leaves behind for its own project. */
  ghost predicate Leaves(cfg: Config, s: State, s': State, m: Name) {
    && (forall u :: u in s'.threads && u !in s.threads ==> ThreadOk(cfg, s', u, s'.threads[u]))
    && (forall o :: 0 <= o < |s'.objs| && s'.objs[o].name == m ==> ObjOk(s', o))
    && TableOk(s') && StartsOk(cfg, s'.starts)
  }

  lemma TopStep(cfg: Config, s: State, s': State, t: Tid, c: Call)
    requires Inv(cfg, s) && t in s.threads && s.threads[t].calls != []
    requires Moves(cfg, s, s', t, c) && Leaves(cfg, s, s', c.name)
    ensures Inv(cfg, s')
  {
    assert ThreadOk(cfg, s, t, s.threads[t]);
    OwnStackOk(cfg, s, s', t, c);
    RestOk(cfg, s, s', t, c.name);
    LocksStillOk(s, s', t, c.name);
    assert ThreadOk(cfg, s', t, s'.threads[t]) by {
      assert ThreadOk(cfg, s, t, s.threads[t]);
    }
  }

  // ---- one step of a call ---------------------------------------------------

  /** The objects of the project whose lock the step holds, when the table and locks are left alone. */
  lemma OwnObjFrame(s: State, s': State, t: Tid, o: nat)
    requires t in s.threads && s.threads[t].calls != []
    requires var c := Top(s.threads[t]); !c.pc.Publish? && (c.name in s.locks ==> s.locks[c.name] == t)
    requires ActsFor(s, s', t, Top(s.threads[t]).name) && t in s'.threads
    requires o < |s.objs| && ObjOk(s, o) && s.objs[o].name == Top(s.threads[t]).name
    requires SameEntry(s, s', s.objs[o].name) && s'.objs[o] == s.objs[o]
    ensures ObjOk(s', o)
  {
    ObjFrame(s, s', o);
  }

  lemma OwnObjsFrame(s: State, s': State, t: Tid)
    requires t in s.threads && s.threads[t].calls != []
    requires var c := Top(s.threads[t]); !c.pc.Publish? && (c.name in s.locks ==> s.locks[c.name] == t)
    requires ActsFor(s, s', t, Top(s.threads[t]).name) && t in s'.threads
    requires SameEntry(s, s', Top(s.threads[t]).name)
    requires forall o :: 0 <= o < |s.objs| ==> ObjOk(s, o)
    ensures forall o :: 0 <= o < |s.objs| && s.objs[o].name == Top(s.threads[t]).name && s'.objs[o] == s.objs[o] ==> ObjOk(s', o)
  {
    forall o | 0 <= o < |s.objs| && s.objs[o].name == Top(s.threads[t]).name && s'.objs[o] == s.objs[o]
      ensures ObjOk(s', o)
    {
      OwnObjFrame(s, s', t, o);
    }
  }

  lemma AdvanceActs(s: State, t: Tid, c: Call)
    requires t in s.threads && s.threads[t].calls != []
    ensures ActsFor(s, Advance(s, t, c), t, c.name)
  {
  }

  lemma AdvanceLeaves(cfg: Config, s: State, t: Tid, c: Call)
    requires t in s.threads && s.threads[t].calls != [] && ObjsOk(s) && TableOk(s) && StartsOk(cfg, s.starts)
    requires var was := Top(s.threads[t]);
             was.name == c.name && !was.pc.Publish? && c.name in s.locks && s.locks[c.name] == t
    ensures ActsFor(s, Advance(s, t, c), t, c.name) && Leaves(cfg, s, Advance(s, t, c), c.name)
  {
    AdvanceActs(s, t, c);
    OwnObjsFrame(s, Advance(s, t, c), t);
  }

  /** Steps that touch nothing but the pc. */
  lemma PcStep(cfg: Config, s: State, t: Tid, c: Call)
    requires Inv(cfg, s) && t in s.threads && s.threads[t].calls != []
    requires var was := Top(s.threads[t]);
             was.name == c.name && was.stop == c.stop && was.pc != Lock && !was.pc.Publish? && !c.pc.DepCall? && c.pc != Lock
    requires c.name in s.locks && s.locks[c.name] == t
    requires CallOk(cfg, Advance(s, t, c), t, c)
    requires t.Watcher? && |s.threads[t].calls| == 1 && PastCircuit(c) && t.obj < |s.objs| && s.objs[t.obj].exitIndex.Some?
             ==> s.objs[t.obj].exitIndex.value < c.seen
    ensures Inv(cfg, Advance(s, t, c))
  {
    hide CallOk, ThreadOk, ObjOk, Leaves, ActsFor;
    AdvanceLeaves(cfg, s, t, c);
    TopStep(cfg, s, Advance(s, t, c), t, c);
  }

  /** What the watcher's own call knows of the exit it restarts after. */
  lemma WatcherSeen(cfg: Config, s: State, t: Tid)
    requires Inv(cfg, s) && t in s.threads && s.threads[t].calls != [] && t.Watcher?
    ensures t.obj < |s.objs| && s.objs[t.obj].exitIndex.Some?
    ensures s.threads[t].calls[0].name == s.objs[t.obj].name
    ensures PastCircuit(s.threads[t].calls[0]) ==> s.objs[t.obj].exitIndex.value < s.threads[t].calls[0].seen
    ensures s.objs[t.obj].exitIndex.value < |At(s.exits, s.objs[t.obj].name)|
  {
    assert ThreadOk(cfg, s, t, s.threads[t]);
    assert ObjOk(s, t.obj);
  }

  /** Thread `t` is at a call step that the invariant lets it take. */
  ghost predicate Poised(cfg: Config, s: State, t: Tid) {
    Inv(cfg, s) && CanRun(cfg, s, t) && s.threads[t].calls != []
  }

  lemma TopOk(cfg: Config, s: State, t: Tid)
    requires Inv(cfg, s) && t in s.threads && s.threads[t].calls != []
    ensures CallOk(cfg, s, t, Top(s.threads[t]))
  {
    assert ThreadOk(cfg, s, t, s.threads[t]);
  }

  function Locked(s: State, t: Tid): State
    requires t in s.threads && s.threads[t].calls != []
  {
    var c := Top(s.threads[t]);
    Advance(s.(locks := s.locks[c.name := t]), t, c.(pc := if c.stop then Lookup else Circuit))
  }

  lemma LockedLeaves(cfg: Config, s: State, t: Tid, c: Call)
    requires t in s.threads && s.threads[t].calls != [] && ObjsOk(s) && TableOk(s) && StartsOk(cfg, s.starts)
    requires c == Top(s.threads[t]) && c.pc.Lock? && c.name !in s.locks
    ensures ActsFor(s, Locked(s, t), t, c.name) && Leaves(cfg, s, Locked(s, t), c.name)
  {
    OwnObjsFrame(s, Locked(s, t), t);
  }

  lemma StepLock(cfg: Config, s: State, t: Tid)
    requires Poised(cfg, s, t) && Top(s.threads[t]).pc.Lock?
    ensures Inv(cfg, Locked(s, t))
  {
    hide ObjOk;
    hide ThreadOk;
    hide Leaves;
    var c := Top(s.threads[t]);
    TopOk(cfg, s, t);
    LockedLeaves(cfg, s, t, c);
    TopStep(cfg, s, Locked(s, t), t, c.(pc := if c.stop then Lookup else Circuit));
  }

  lemma AskCircuitOk(cfg: Config, s: State, t: Tid, c: Call)
    requires ExitsOk(s, c.name) && t in s.threads && s.threads[t].calls != []
    requires CallOk(cfg, s, t, c) && c.pc.Circuit?
    ensures CallOk(cfg, Advance(s, t, AskCircuit(s, c)), t, AskCircuit(s, c))
  {
    AgreesOpen(At(s.crashes, c.name), At(s.exits, c.name), s.now, s.now);
    assert At(s.exits, c.name)[..|At(s.exits, c.name)|] == At(s.exits, c.name);
  }

  lemma StepCircuit(cfg: Config, s: State, t: Tid)
    requires Poised(cfg, s, t) && Top(s.threads[t]).pc.Circuit?
    ensures Inv(cfg, Advance(s, t, AskCircuit(s, Top(s.threads[t]))))
  {
    hide ObjOk;
    hide ThreadOk;
    hide Leaves;
    var c := Top(s.threads[t]);
    TopOk(cfg, s, t);
    if t.Watcher? { WatcherSeen(cfg, s, t); }
    assert ExitsOk(s, c.name);
    AskCircuitOk(cfg, s, t, c);
    PcStep(cfg, s, t, AskCircuit(s, c));
  }

  /** Nothing named `n` can be live but the entry in the table, unless it is being published. */
  lemma OnlyEntryLive(cfg: Config, s: State, t: Tid)
    requires Inv(cfg, s) && t in s.threads && s.threads[t].calls != []
    requires var c := Top(s.threads[t]); !c.pc.Publish? && c.name in s.locks && s.locks[c.name] == t
    ensures var n := Top(s.threads[t]).name;
            forall x :: 0 <= x < |s.objs| && s.objs[x].name == n && s.objs[x].live ==>
              n in s.projects && s.projects[n] == x && s.objs[x].status == Running
  {
    forall x | 0 <= x < |s.objs| && s.objs[x].name == Top(s.threads[t]).name && s.objs[x].live
      ensures var n := s.objs[x].name; n in s.projects && s.projects[n] == x && s.objs[x].status == Running
    {
      assert ObjOk(s, x);
    }
  }

  lemma LookUpOk(cfg: Config, s: State, t: Tid, c: Call)
    requires TableOk(s) && t in s.threads && s.threads[t].calls != []
    requires forall x :: 0 <= x < |s.objs| && s.objs[x].name == c.name && s.objs[x].live ==>
               c.name in s.projects && s.projects[c.name] == x && s.objs[x].status == Running
    requires CallOk(cfg, s, t, c) && c.pc.Lookup?
    ensures CallOk(cfg, Advance(s, t, LookUp(s, c)), t, LookUp(s, c))
  {
  }

  lemma StepLookup(cfg: Config, s: State, t: Tid)
    requires Poised(cfg, s, t) && Top(s.threads[t]).pc.Lookup?
    ensures Inv(cfg, Advance(s, t, LookUp(s, Top(s.threads[t]))))
  {
    hide ObjOk;
    hide ThreadOk;
    hide Leaves;
    var c := Top(s.threads[t]);
    TopOk(cfg, s, t);
    if t.Watcher? { WatcherSeen(cfg, s, t); }
    OnlyEntryLive(cfg, s, t);
    LookUpOk(cfg, s, t, c);
    PcStep(cfg, s, t, LookUp(s, c));
  }

  function ConfigRead(c: Call, ok: bool): Call {
    c.(pc := if ok then Deps(0) else Unlock(false))
  }

  lemma ReadConfigOk(cfg: Config, s: State, t: Tid, c: Call, ok: bool)
    requires t in s.threads && s.threads[t].calls != []
    requires CallOk(cfg, s, t, c) && c.pc.ReadConfig? && (ok ==> c.name in cfg.deps)
    ensures CallOk(cfg, Advance(s, t, ConfigRead(c, ok)), t, ConfigRead(c, ok))
  {
  }

  lemma StepConfig(cfg: Config, s: State, t: Tid, ok: bool)
    requires Poised(cfg, s, t) && Top(s.threads[t]).pc.ReadConfig?
    requires ok ==> Top(s.threads[t]).name in cfg.deps
    ensures Inv(cfg, Advance(s, t, ConfigRead(Top(s.threads[t]), ok)))
  {
    hide ObjOk;
    hide ThreadOk;
    hide Leaves;
    var c := Top(s.threads[t]);
    TopOk(cfg, s, t);
    if t.Watcher? { WatcherSeen(cfg, s, t); }
    ReadConfigOk(cfg, s, t, c, ok);
    PcStep(cfg, s, t, ConfigRead(c, ok));
  }

  // ---- steps of stopProject -------------------------------------------------

  function WithObj(s: State, t: Tid, o: nat, p: Project, c: Call): State
    requires t in s.threads && s.threads[t].calls != [] && o < |s.objs|
  {
    Advance(s.(objs := s.objs[o := p]), t, c)
  }

  lemma WithObjActs(s: State, t: Tid, o: nat, p: Project, c: Call)
    requires t in s.threads && s.threads[t].calls != [] && o < |s.objs| && s.objs[o].name == c.name
    requires var q := s.objs[o];
             p == q.(status := p.status, live := p.live, manuallyStopped := p.manuallyStopped)
             && (p.live ==> q.live)
    ensures ActsFor(s, WithObj(s, t, o, p, c), t, c.name)
  {
  }

  lemma WithObjOk(s: State, t: Tid, o: nat, p: Project, c: Call)
    requires t in s.threads && s.threads[t].calls != [] && o < |s.objs| && s.objs[o].name == c.name
    requires ObjOk(s, o) && !Top(s.threads[t]).pc.Publish? && Top(s.threads[t]).name == c.name
    requires c.name in s.locks && s.locks[c.name] == t
    requires var q := s.objs[o];
             p == q.(status := p.status, live := p.live, manuallyStopped := p.manuallyStopped)
             && (p.live ==> q.live)
    requires p.status != Running ==> !p.live
    ensures ObjOk(WithObj(s, t, o, p, c), o)
  {
  }

  lemma WithObjLeaves(cfg: Config, s: State, t: Tid, o: nat, p: Project, c: Call)
    requires t in s.threads && s.threads[t].calls != [] && ObjsOk(s) && TableOk(s) && StartsOk(cfg, s.starts)
    requires var was := Top(s.threads[t]);
             was.name == c.name && !was.pc.Publish? && c.name in s.locks && s.locks[c.name] == t
    requires o < |s.objs| && s.objs[o].name == c.name
    requires var q := s.objs[o];
             p == q.(status := p.status, live := p.live, manuallyStopped := p.manuallyStopped)
             && (p.live ==> q.live)
    requires ObjOk(WithObj(s, t, o, p, c), o)
    ensures ActsFor(s, WithObj(s, t, o, p, c), t, c.name) && Leaves(cfg, s, WithObj(s, t, o, p, c), c.name)
  {
    WithObjActs(s, t, o, p, c);
    OwnObjsFrame(s, WithObj(s, t, o, p, c), t);
  }

  /** `stopProject` changes one object of the project whose lock it holds. */
  lemma ObjStep(cfg: Config, s: State, t: Tid, o: nat, p: Project, c: Call)
    requires Inv(cfg, s) && t in s.threads && s.threads[t].calls != []
    requires var was := Top(s.threads[t]);
             was.name == c.name && was.stop == c.stop && was.pc != Lock && !was.pc.Publish? && !c.pc.DepCall? && c.pc != Lock
             && (PastCircuit(c) ==> PastCircuit(was) && c.seen == was.seen)
    requires c.name in s.locks && s.locks[c.name] == t
    requires o < |s.objs| && s.objs[o].name == c.name
    requires var q := s.objs[o];
             p == q.(status := p.status, live := p.live, manuallyStopped := p.manuallyStopped)
             && (p.live ==> q.live)
    requires CallOk(cfg, WithObj(s, t, o, p, c), t, c)
    requires p.status != Running ==> !p.live
    ensures Inv(cfg, WithObj(s, t, o, p, c))
  {
    hide CallOk;
    hide ThreadOk;
    hide Leaves;
    if t.Watcher? { WatcherSeen(cfg, s, t); }
    assert ObjOk(s, o);
    WithObjOk(s, t, o, p, c);
    WithObjLeaves(cfg, s, t, o, p, c);
    TopStep(cfg, s, WithObj(s, t, o, p, c), t, c);
  }

  lemma FlagOk(cfg: Config, s: State, t: Tid, c: Call)
    requires t in s.threads && s.threads[t].calls != [] && CallOk(cfg, s, t, c) && c.pc.Flag?
    ensures var c' := c.(pc := Kill(c.pc.obj)); CallOk(cfg, WithObj(s, t, c.pc.obj, s.objs[c.pc.obj].(manuallyStopped := true), c'), t, c')
  {
  }

  lemma StepFlag(cfg: Config, s: State, t: Tid)
    requires Poised(cfg, s, t) && Top(s.threads[t]).pc.Flag?
    ensures var c := Top(s.threads[t]);
            Inv(cfg, WithObj(s, t, c.pc.obj, s.objs[c.pc.obj].(manuallyStopped := true), c.(pc := Kill(c.pc.obj))))
  {
    hide ThreadOk, Leaves, StackOk;
    var c := Top(s.threads[t]);
    TopOk(cfg, s, t);
    assert ObjOk(s, c.pc.obj);
    FlagOk(cfg, s, t, c);
    ObjStep(cfg, s, t, c.pc.obj, s.objs[c.pc.obj].(manuallyStopped := true), c.(pc := Kill(c.pc.obj)));
  }

  lemma KillOk(cfg: Config, s: State, t: Tid, c: Call)
    requires t in s.threads && s.threads[t].calls != [] && CallOk(cfg, s, t, c) && c.pc.Kill?
    requires forall x :: 0 <= x < |s.objs| && s.objs[x].name == c.name && s.objs[x].live ==>
               c.name in s.projects && s.projects[c.name] == x
    ensures var c' := c.(pc := Mark(c.pc.obj));
            CallOk(cfg, WithObj(s, t, c.pc.obj, s.objs[c.pc.obj].(live := false), c'), t, c')
  {
  }

  lemma StepKill(cfg: Config, s: State, t: Tid)
    requires Poised(cfg, s, t) && Top(s.threads[t]).pc.Kill?
    ensures var c := Top(s.threads[t]);
            Inv(cfg, WithObj(s, t, c.pc.obj, s.objs[c.pc.obj].(live := false), c.(pc := Mark(c.pc.obj))))
  {
    hide ThreadOk, Leaves, StackOk;
    var c := Top(s.threads[t]);
    TopOk(cfg, s, t);
    assert ObjOk(s, c.pc.obj);
    OnlyEntryLive(cfg, s, t);
    KillOk(cfg, s, t, c);
    ObjStep(cfg, s, t, c.pc.obj, s.objs[c.pc.obj].(live := false), c.(pc := Mark(c.pc.obj)));
  }

  function Marked(c: Call): Call {
    c.(pc := if c.stop then Unlock(true) else ReadConfig)
  }

  lemma MarkOk(cfg: Config, s: State, t: Tid, c: Call)
    requires t in s.threads && s.threads[t].calls != [] && CallOk(cfg, s, t, c) && c.pc.Mark?
    ensures CallOk(cfg, WithObj(s, t, c.pc.obj, s.objs[c.pc.obj].(status := Stopped), Marked(c)), t, Marked(c))
  {
  }

  lemma StepMark(cfg: Config, s: State, t: Tid)
    requires Poised(cfg, s, t) && Top(s.threads[t]).pc.Mark?
    ensures var c := Top(s.threads[t]);
            Inv(cfg, WithObj(s, t, c.pc.obj, s.objs[c.pc.obj].(status := Stopped), Marked(c)))
  {
    hide ThreadOk, Leaves, StackOk;
    var c := Top(s.threads[t]);
    TopOk(cfg, s, t);
    assert ObjOk(s, c.pc.obj);
    MarkOk(cfg, s, t, c);
    ObjStep(cfg, s, t, c.pc.obj, s.objs[c.pc.obj].(status := Stopped), Marked(c));
  }

  // ---- dependencies ---------------------------------------------------------

  lemma StartedIfKnown(cfg: Config, s: State, o: nat)
    requires Inv(cfg, s) && o < |s.objs|
    ensures s.objs[o].name in s.starts
  {
    assert ObjOk(s, o);
  }

  lemma DepsDoneOk(cfg: Config, s: State, t: Tid, c: Call)
    requires t in s.threads && s.threads[t].calls != [] && CallOk(cfg, s, t, c)
    requires c.pc.Deps? && c.pc.k == |cfg.deps[c.name]|
    ensures CallOk(cfg, Advance(s, t, c.(pc := Launch)), t, c.(pc := Launch))
  {
  }

  lemma DepSeenOk(cfg: Config, s: State, t: Tid, c: Call, d: nat)
    requires t in s.threads && s.threads[t].calls != [] && CallOk(cfg, s, t, c)
    requires c.pc.Deps? && c.pc.k < |cfg.deps[c.name]| && d < |s.objs| && s.objs[d].name == cfg.deps[c.name][c.pc.k]
    ensures CallOk(cfg, Advance(s, t, c.(pc := DepCheck(c.pc.k, d))), t, c.(pc := DepCheck(c.pc.k, d)))
  {
  }

  lemma DepRunsOk(cfg: Config, s: State, t: Tid, c: Call)
    requires t in s.threads && s.threads[t].calls != [] && CallOk(cfg, s, t, c)
    requires c.pc.DepCheck? && cfg.deps[c.name][c.pc.k] in s.starts
    ensures CallOk(cfg, Advance(s, t, c.(pc := Deps(c.pc.k + 1))), t, c.(pc := Deps(c.pc.k + 1)))
  {
  }

  lemma RefusedOk(cfg: Config, s: State, t: Tid, c: Call)
    requires t in s.threads && s.threads[t].calls != [] && CallOk(cfg, s, t, c) && c.pc != Lock
    ensures CallOk(cfg, Advance(s, t, c.(pc := Unlock(false))), t, c.(pc := Unlock(false)))
  {
  }

  function Pushed(cfg: Config, s: State, t: Tid, k: nat): State
    requires t in s.threads && s.threads[t].calls != []
    requires var c := Top(s.threads[t]); c.name in cfg.deps && k < |cfg.deps[c.name]|
  {
    s.(threads := s.threads[t := CallDep(s.threads[t], k, cfg.deps[Top(s.threads[t]).name][k])])
  }

  /** Only stacks changed. */
  ghost predicate SameButStacks(s: State, s': State) {
    s' == s.(threads := s'.threads) && s'.threads.Keys == s.threads.Keys
  }

  lemma CallSame(cfg: Config, s: State, s': State, t: Tid, c: Call)
    requires SameButStacks(s, s') && CallOk(cfg, s, t, c)
    ensures CallOk(cfg, s', t, c)
  {
  }

  lemma ThreadSame(cfg: Config, s: State, s': State, u: Tid, th: Thread)
    requires SameButStacks(s, s') && ThreadOk(cfg, s, u, th)
    ensures ThreadOk(cfg, s', u, th)
  {
    forall i | 0 <= i < |th.calls|
      ensures CallOk(cfg, s', u, th.calls[i])
    {
      CallSame(cfg, s, s', u, th.calls[i]);
    }
  }

  lemma ObjSame(s: State, s': State, t: Tid, o: nat)
    requires SameButStacks(s, s') && o < |s.objs| && ObjOk(s, o)
    requires t in s.threads && s.threads[t].calls != [] && !Top(s.threads[t]).pc.Publish?
    requires forall u :: u in s.threads && u != t ==> s'.threads[u] == s.threads[u]
    ensures ObjOk(s', o)
  {
  }

  /** A step that changes only the stack of thread `t`, and drops no lock. */
  lemma ThreadStep(cfg: Config, s: State, t: Tid, th: Thread)
    requires Inv(cfg, s) && t in s.threads && s.threads[t].calls != [] && !Top(s.threads[t]).pc.Publish?
    requires ThreadOk(cfg, s.(threads := s.threads[t := th]), t, th)
    requires forall i :: 0 <= i < |s.threads[t].calls| && s.threads[t].calls[i].pc != Lock ==>
               Holds(th, s.threads[t].calls[i].name)
    ensures Inv(cfg, s.(threads := s.threads[t := th]))
  {
    hide ObjOk, CallOk, ThreadOk, StartsOk;
    var s' := s.(threads := s.threads[t := th]);
    forall u | u in s'.threads && u != t
      ensures ThreadOk(cfg, s', u, s'.threads[u])
    {
      ThreadSame(cfg, s, s', u, s.threads[u]);
    }
    forall o | 0 <= o < |s'.objs|
      ensures ObjOk(s', o)
    {
      ObjSame(s, s', t, o);
    }
    forall n
      ensures ExitsOk(s', n)
    {
      assert ExitsOk(s, n);
    }
  }

  lemma PushedCallsOk(cfg: Config, s: State, s': State, t: Tid, c: Call, k: nat)
    requires SameButStacks(s, s') && CallOk(cfg, s, t, c)
    requires c.name in cfg.deps && k < |cfg.deps[c.name]| && !c.stop
    requires c.pc == Deps(k) || (c.pc.DepCheck? && c.pc.k == k)
    ensures CallOk(cfg, s', t, c.(pc := DepCall(k)))
    ensures CallOk(cfg, s', t, Call(false, cfg.deps[c.name][k], Lock, 0, 0))
  {
  }

  /** The stack with the call for dependency `k` on top of the caller that waits for it. */
  lemma PushStack(cfg: Config, calls: seq<Call>, pushed: seq<Call>, k: nat)
    requires calls != [] && StackOk(cfg, calls)
    requires var c := calls[|calls| - 1];
             c.name in cfg.deps && k < |cfg.deps[c.name]|
             && pushed == calls[..|calls| - 1] + [c.(pc := DepCall(k)), Call(false, cfg.deps[c.name][k], Lock, 0, 0)]
    requires calls[|calls| - 1].pc != Lock
    ensures StackOk(cfg, pushed)
  {
    var last := |calls| - 1;
    forall i | 0 < i < |pushed|
      ensures Link(cfg, pushed, i)
    {
      if i <= last {
        assert Link(cfg, calls, i);
      }
    }
    forall i, j | 0 <= i < j < |pushed| && pushed[j].pc != Lock
      ensures pushed[i].name != pushed[j].name
    {
      assert j <= last && calls[i].name == pushed[i].name && calls[j].name == pushed[j].name;
    }
  }

  ghost predicate AtDep(cfg: Config, c: Call, k: nat) {
    && c.name in cfg.deps && k < |cfg.deps[c.name]| && !c.stop
    && (c.pc == Deps(k) || (c.pc.DepCheck? && c.pc.k == k))
  }

  lemma PushedStackOk(cfg: Config, s: State, s': State, t: Tid, th: Thread, th': Thread, k: nat)
    requires ThreadOk(cfg, s, t, th) && th.calls != [] && AtDep(cfg, Top(th), k)
    requires SameButStacks(s, s') && th' == CallDep(th, k, cfg.deps[Top(th).name][k])
    ensures StackOk(cfg, th'.calls)
    ensures forall i :: 0 <= i < |th'.calls| ==> CallOk(cfg, s', t, th'.calls[i])
    ensures forall i :: 0 <= i < |th.calls| ==> Holds(th', th.calls[i].name)
  {
    hide LiveOk, DepsOk, Admitted, WatchOk, SameButStacks;
    var c, last := Top(th), |th.calls| - 1;
    assert th'.calls == th.calls[..last] + [c.(pc := DepCall(k)), Call(false, cfg.deps[c.name][k], Lock, 0, 0)];
    PushStack(cfg, th.calls, th'.calls, k);
    PushedCallsOk(cfg, s, s', t, c, k);
    forall i | 0 <= i < last
      ensures CallOk(cfg, s', t, th'.calls[i]) && Holds(th', th.calls[i].name)
    {
      assert Link(cfg, th.calls, i + 1);
      CallSame(cfg, s, s', t, th.calls[i]);
      assert th'.calls[i] == th.calls[i];
    }
    assert th'.calls[last] == c.(pc := DepCall(k));
  }

  /** A caller pushes the call for a dependency and waits for it. */
  lemma PushStep(cfg: Config, s: State, t: Tid, k: nat)
    requires Inv(cfg, s) && t in s.threads && s.threads[t].calls != [] && AtDep(cfg, Top(s.threads[t]), k)
    ensures Inv(cfg, Pushed(cfg, s, t, k))
  {
    hide CallOk, ObjOk, StackOk, WatchOk, Holds;
    var th := s.threads[t];
    var s' := Pushed(cfg, s, t, k);
    var th' := s'.threads[t];
    assert ThreadOk(cfg, s, t, th);
    PushedStackOk(cfg, s, s', t, th, th', k);
    PushedThreadOk(cfg, s, s', t, th, th', k);
    ThreadStep(cfg, s, t, th');
  }

  lemma PushedThreadOk(cfg: Config, s: State, s': State, t: Tid, th: Thread, th': Thread, k: nat)
    requires ThreadOk(cfg, s, t, th) && th.calls != [] && AtDep(cfg, Top(th), k)
    requires SameButStacks(s, s') && th' == CallDep(th, k, cfg.deps[Top(th).name][k])
    requires StackOk(cfg, th'.calls) && forall i :: 0 <= i < |th'.calls| ==> CallOk(cfg, s', t, th'.calls[i])
    ensures ThreadOk(cfg, s', t, th')
  {
    hide CallOk, StackOk;
    assert if |th.calls| > 1 then th'.calls[0] == th.calls[0] else th'.calls[0] == th.calls[0].(pc := DepCall(k));
  }

  lemma StepDepsDone(cfg: Config, s: State, t: Tid)
    requires Poised(cfg, s, t) && Top(s.threads[t]).pc.Deps?
    requires Top(s.threads[t]).pc.k == |cfg.deps[Top(s.threads[t]).name]|
    ensures Inv(cfg, Advance(s, t, Top(s.threads[t]).(pc := Launch)))
  {
    hide ObjOk;
    hide ThreadOk;
    hide Leaves;
    var c := Top(s.threads[t]);
    TopOk(cfg, s, t);
    if t.Watcher? { WatcherSeen(cfg, s, t); }
    DepsDoneOk(cfg, s, t, c);
    PcStep(cfg, s, t, c.(pc := Launch));
  }

  lemma StepDepSeen(cfg: Config, s: State, t: Tid, d: nat)
    requires Poised(cfg, s, t) && Top(s.threads[t]).pc.Deps?
    requires var c := Top(s.threads[t]);
             c.pc.k < |cfg.deps[c.name]| && d < |s.objs| && s.objs[d].name == cfg.deps[c.name][c.pc.k]
    ensures var c := Top(s.threads[t]); Inv(cfg, Advance(s, t, c.(pc := DepCheck(c.pc.k, d))))
  {
    hide ObjOk;
    hide ThreadOk;
    hide Leaves;
    var c := Top(s.threads[t]);
    TopOk(cfg, s, t);
    if t.Watcher? { WatcherSeen(cfg, s, t); }
    DepSeenOk(cfg, s, t, c, d);
    PcStep(cfg, s, t, c.(pc := DepCheck(c.pc.k, d)));
  }

  lemma StepDepRuns(cfg: Config, s: State, t: Tid)
    requires Poised(cfg, s, t) && Top(s.threads[t]).pc.DepCheck?
    ensures var c := Top(s.threads[t]); Inv(cfg, Advance(s, t, c.(pc := Deps(c.pc.k + 1))))
  {
    hide ObjOk;
    hide ThreadOk;
    hide Leaves;
    var c := Top(s.threads[t]);
    TopOk(cfg, s, t);
    if t.Watcher? { WatcherSeen(cfg, s, t); }
    StartedIfKnown(cfg, s, c.pc.dep);
    DepRunsOk(cfg, s, t, c);
    PcStep(cfg, s, t, c.(pc := Deps(c.pc.k + 1)));
  }

  // ---- launching, publishing, returning --------------------------------------

  lemma StartsGrow(cfg: Config, starts: seq<Name>, n: Name)
    requires StartsOk(cfg, starts)
    requires n in cfg.deps && DepsStarted(cfg, starts, n, |cfg.deps[n]|)
    ensures StartsOk(cfg, starts + [n])
  {
    var longer := starts + [n];
    forall i, k | 0 <= i < |longer| && longer[i] in cfg.deps && 0 <= k < |cfg.deps[longer[i]]|
      ensures cfg.deps[longer[i]][k] in longer[..i]
    {
      if i < |starts| {
        assert longer[..i] == starts[..i];
      } else {
        assert longer[..i] == starts;
      }
    }
  }

  function LaunchedState(s: State, t: Tid): State
    requires t in s.threads && s.threads[t].calls != []
  {
    var c := Top(s.threads[t]);
    Advance(s.(objs := s.objs + [Launched(s, t, c)], starts := s.starts + [c.name]), t, c.(pc := Publish(|s.objs|)))
  }

  lemma LaunchedActs(s: State, t: Tid)
    requires t in s.threads && s.threads[t].calls != []
    requires forall o: nat :: Watcher(o) in s.threads ==> o < |s.objs|
    ensures ActsFor(s, LaunchedState(s, t), t, Top(s.threads[t]).name)
  {
  }

  lemma LaunchedCallOk(cfg: Config, s: State, t: Tid)
    requires t in s.threads && s.threads[t].calls != [] && CallOk(cfg, s, t, Top(s.threads[t]))
    requires Top(s.threads[t]).pc.Launch?
    requires forall o: nat :: Watcher(o) in s.threads ==> o < |s.objs|
    ensures CallOk(cfg, LaunchedState(s, t), t, Top(s.threads[t]).(pc := Publish(|s.objs|)))
  {
    var c := Top(s.threads[t]);
    AdmittedFrame(s, LaunchedState(s, t), c.name, c.admittedAt, c.seen);
  }

  /** The parent recorded for a launch from the watcher's own call has an exit the admission saw. */
  ghost predicate ParentOk(s: State, t: Tid, c: Call) {
    t.Watcher? ==>
      && t.obj < |s.objs| && s.objs[t.obj].name == c.name
      && s.objs[t.obj].exitIndex.Some? && s.objs[t.obj].exitIndex.value < c.seen
  }

  lemma LaunchedObjOk(cfg: Config, s: State, t: Tid)
    requires t in s.threads && s.threads[t].calls != []
    requires var c := Top(s.threads[t]);
             && c.pc.Launch? && Admitted(s, c.name, c.admittedAt, c.seen)
             && c.name in s.locks && s.locks[c.name] == t
             && (|s.threads[t].calls| == 1 ==> ParentOk(s, t, c))
    requires Watcher(|s.objs|) !in s.threads
    ensures ObjOk(LaunchedState(s, t), |s.objs|)
  {
    var c, s', o := Top(s.threads[t]), LaunchedState(s, t), |s.objs|;
    assert s'.objs[o] == Launched(s, t, c);
    assert c.name == s'.starts[|s.starts|];
    assert Publishing(s', c.name, o);
    AdmittedFrame(s, s', c.name, c.admittedAt, c.seen);
  }

  lemma LaunchedLeaves(cfg: Config, s: State, t: Tid)
    requires t in s.threads && s.threads[t].calls != [] && ObjsOk(s) && TableOk(s)
    requires var c := Top(s.threads[t]); c.pc.Launch? && c.name in s.locks && s.locks[c.name] == t
    requires StartsOk(cfg, s.starts + [Top(s.threads[t]).name])
    requires forall o: nat :: Watcher(o) in s.threads ==> o < |s.objs|
    requires ObjOk(LaunchedState(s, t), |s.objs|)
    ensures ActsFor(s, LaunchedState(s, t), t, Top(s.threads[t]).name)
    ensures Leaves(cfg, s, LaunchedState(s, t), Top(s.threads[t]).name)
  {
    LaunchedActs(s, t);
    OwnObjsFrame(s, LaunchedState(s, t), t);
  }

  lemma StepLaunch(cfg: Config, s: State, t: Tid)
    requires Poised(cfg, s, t) && Top(s.threads[t]).pc.Launch?
    ensures Inv(cfg, LaunchedState(s, t))
  {
    hide StartsOk;
    hide ThreadOk;
    hide Leaves;
    hide ObjOk;
    var c := Top(s.threads[t]);
    WatchersExist(cfg, s);
    TopOk(cfg, s, t);
    LaunchedCallOk(cfg, s, t);
    if t.Watcher? { WatcherSeen(cfg, s, t); }
    assert |s.threads[t].calls| == 1 ==> s.threads[t].calls[0] == c;
    StartsGrow(cfg, s.starts, c.name);
    LaunchedObjOk(cfg, s, t);
    LaunchedLeaves(cfg, s, t);
    TopStep(cfg, s, LaunchedState(s, t), t, c.(pc := Publish(|s.objs|)));
  }

  function PublishedState(s: State, t: Tid, o: nat): State
    requires t in s.threads && s.threads[t].calls != []
  {
    var c := Top(s.threads[t]);
    var s1 := Advance(s, t, c.(pc := Unlock(true)));
    s1.(projects := s.projects[c.name := o], threads := s1.threads[Watcher(o) := Thread(Watch(Wait), [])])
  }

  lemma PublishedActs(s: State, t: Tid, o: nat)
    requires t in s.threads && s.threads[t].calls != [] && Watcher(o) !in s.threads
    requires o < |s.objs| && s.objs[o].name == Top(s.threads[t]).name
    ensures ActsFor(s, PublishedState(s, t, o), t, Top(s.threads[t]).name)
  {
  }

  lemma PublishedObjsOk(s: State, t: Tid, o: nat)
    requires t in s.threads && s.threads[t].calls != [] && Watcher(o) !in s.threads
    requires o < |s.objs| && forall x :: 0 <= x < |s.objs| ==> ObjOk(s, x)
    requires OnlyLive(s, Top(s.threads[t]).name, o)
    ensures forall x :: 0 <= x < |s.objs| && s.objs[x].name == Top(s.threads[t]).name ==> ObjOk(PublishedState(s, t, o), x)
  {
    forall x | 0 <= x < |s.objs| && s.objs[x].name == Top(s.threads[t]).name
      ensures ObjOk(PublishedState(s, t, o), x)
    {
      assert ObjOk(s, x);
    }
  }

  lemma NewWatcherOk(cfg: Config, s: State, t: Tid, o: nat)
    requires t in s.threads && s.threads[t].calls != []
    requires o < |s.objs| && ObjOk(s, o) && Watcher(o) !in s.threads
    ensures var s' := PublishedState(s, t, o);
            forall u :: u in s'.threads && u !in s.threads ==> ThreadOk(cfg, s', u, s'.threads[u])
  {
    var s' := PublishedState(s, t, o);
    assert ThreadOk(cfg, s', Watcher(o), Thread(Watch(Wait), []));
  }

  lemma PublishedCallOk(cfg: Config, s: State, t: Tid, c: Call)
    requires t in s.threads && s.threads[t].calls != [] && c == Top(s.threads[t])
    requires CallOk(cfg, s, t, c) && c.pc.Publish? && TableOk(s)
    ensures CallOk(cfg, PublishedState(s, t, c.pc.obj), t, c.(pc := Unlock(true)))
    ensures TableOk(PublishedState(s, t, c.pc.obj))
  {
  }

  lemma PublishedLeaves(cfg: Config, s: State, t: Tid, c: Call)
    requires t in s.threads && s.threads[t].calls != [] && c == Top(s.threads[t]) && ObjsOk(s) && TableOk(s)
    requires StartsOk(cfg, s.starts) && CallOk(cfg, s, t, c) && c.pc.Publish?
    ensures var s' := PublishedState(s, t, c.pc.obj); ActsFor(s, s', t, c.name) && Leaves(cfg, s, s', c.name)
  {
    var o := c.pc.obj;
    PublishedActs(s, t, o);
    PublishedCallOk(cfg, s, t, c);
    NewWatcherOk(cfg, s, t, o);
    PublishedObjsOk(s, t, o);
  }

  lemma StepPublish(cfg: Config, s: State, t: Tid)
    requires Poised(cfg, s, t) && Top(s.threads[t]).pc.Publish?
    ensures Inv(cfg, PublishedState(s, t, Top(s.threads[t]).pc.obj))
  {
    var c := Top(s.threads[t]);
    TopOk(cfg, s, t);
    PublishedCallOk(cfg, s, t, c);
    PublishedLeaves(cfg, s, t, c);
    TopStep(cfg, s, PublishedState(s, t, c.pc.obj), t, c.(pc := Unlock(true)));
  }

  function ReturnedState(s: State, t: Tid, ok: bool): State
    requires t in s.threads && s.threads[t].calls != []
  {
    s.(locks := s.locks - {Top(s.threads[t]).name}, threads := s.threads[t := Return(s.threads[t], ok)])
  }

  lemma ReturnedActs(s: State, t: Tid, ok: bool)
    requires t in s.threads && s.threads[t].calls != []
    ensures ActsFor(s, ReturnedState(s, t, ok), t, Top(s.threads[t]).name)
  {
  }

  lemma ReturnedCallOk(cfg: Config, s: State, t: Tid, c: Call, ok: bool)
    requires CallOk(cfg, s, t, c) && c.pc.DepCall? && (ok ==> cfg.deps[c.name][c.pc.k] in s.starts)
    ensures var c' := c.(pc := if ok then Deps(c.pc.k + 1) else Unlock(false)); CallOk(cfg, s, t, c')
  {
  }

  lemma ReturnedStackOk(cfg: Config, s: State, t: Tid, ok: bool)
    requires t in s.threads && ThreadOk(cfg, s, t, s.threads[t]) && s.threads[t].calls != []
    requires Top(s.threads[t]).pc == Unlock(ok)
    ensures var s' := ReturnedState(s, t, ok);
            && (forall i :: 0 <= i < |s'.threads[t].calls| ==> CallOk(cfg, s', t, s'.threads[t].calls[i]))
            && (forall i :: 0 <= i < |s.threads[t].calls| - 1 ==> Holds(s'.threads[t], s.threads[t].calls[i].name))
  {
    var s' := ReturnedState(s, t, ok);
    var th, th' := s.threads[t], s'.threads[t];
    var last := |th.calls| - 1;
    ReturnedActs(s, t, ok);
    assert CallOk(cfg, s, t, Top(th));
    forall i | 0 <= i < last
      ensures CallOk(cfg, s', t, th'.calls[i]) && Holds(th', th.calls[i].name)
    {
      BelowOk(cfg, s, s', t, i);
      assert Link(cfg, th.calls, i + 1);
      if i == last - 1 {
        ReturnedCallOk(cfg, s', t, th.calls[i], ok);
      }
      assert th'.calls[i].name == th.calls[i].name && th'.calls[i].pc != Lock;
    }
  }

  lemma ReturnedLinks(cfg: Config, th: Thread, ok: bool)
    requires th.calls != [] && StackOk(cfg, th.calls)
    ensures StackOk(cfg, Return(th, ok).calls)
  {
    var th' := Return(th, ok);
    forall i | 0 < i < |th'.calls|
      ensures Link(cfg, th'.calls, i)
    {
      assert Link(cfg, th.calls, i);
    }
    if |th.calls| > 1 {
      assert Link(cfg, th.calls, |th.calls| - 1);
    }
  }

  lemma ReturnedThreadOk(cfg: Config, s: State, s': State, t: Tid, ok: bool)
    requires t in s.threads && ThreadOk(cfg, s, t, s.threads[t]) && s.threads[t].calls != []
    requires s'.objs == s.objs
    requires var th' := Return(s.threads[t], ok); forall i :: 0 <= i < |th'.calls| ==> CallOk(cfg, s', t, th'.calls[i])
    ensures ThreadOk(cfg, s', t, Return(s.threads[t], ok))
  {
    ReturnedLinks(cfg, s.threads[t], ok);
    var th := s.threads[t];
    if |th.calls| > 1 {
      assert Link(cfg, th.calls, |th.calls| - 1);
    }
  }

  lemma StepUnlock(cfg: Config, s: State, t: Tid)
    requires Poised(cfg, s, t) && Top(s.threads[t]).pc.Unlock?
    ensures Inv(cfg, ReturnedState(s, t, Top(s.threads[t]).pc.ok))
  {
    hide ObjOk;
    hide CallOk, StackOk, Agrees, Sorted, StartsOk, Same, SameEntry;
    var c := Top(s.threads[t]);
    var s' := ReturnedState(s, t, c.pc.ok);
    TopOk(cfg, s, t);
    ReturnedActs(s, t, c.pc.ok);
    assert ThreadOk(cfg, s, t, s.threads[t]);
    ReturnedStackOk(cfg, s, t, c.pc.ok);
    ReturnedThreadOk(cfg, s, s', t, c.pc.ok);
    OwnObjsFrame(s, s', t);
    RestOk(cfg, s, s', t, c.name);
    LocksStillOk(s, s', t, c.name);
  }

  // ---- watchers and the environment -----------------------------------------

  /** A step outside every call: thread `w` is new, or a watcher between calls. */
  lemma FreeStep(cfg: Config, s: State, s': State, w: Tid)
    requires Inv(cfg, s) && Grows(s, s') && (forall n :: Same(s, s', n))
    requires s'.starts == s.starts && s'.projects == s.projects && s'.locks == s.locks && |s'.objs| == |s.objs|
    requires forall u :: u in s.threads && u != w ==> u in s'.threads && s'.threads[u] == s.threads[u]
    requires forall u :: u in s'.threads ==> u in s.threads || u == w
    requires w in s.threads ==> s.threads[w].calls == [] && w in s'.threads
    requires w in s'.threads ==> ThreadOk(cfg, s', w, s'.threads[w])
    requires forall o: nat :: o < |s.objs| && Watcher(o) != w ==> s'.objs[o] == s.objs[o].(live := s'.objs[o].live)
    requires forall o: nat :: o < |s.objs| && Watcher(o) == w ==> ObjOk(s', o)
    requires forall n :: ExitsOk(s', n)
    ensures Inv(cfg, s')
  {
    forall u | u in s'.threads && u != w
      ensures ThreadOk(cfg, s', u, s'.threads[u])
    {
      assert ThreadOk(cfg, s, u, s.threads[u]);
      forall i | 0 <= i < |s.threads[u].calls|
        ensures CallOk(cfg, s', u, s.threads[u].calls[i])
      {
        CallFrame(cfg, s, s', u, s.threads[u].calls[i]);
      }
    }
    forall o: nat | o < |s'.objs| && Watcher(o) != w
      ensures ObjOk(s', o)
    {
      FreeObjOk(s, s', w, o);
    }
    forall n | n in s'.locks
      ensures s'.locks[n] in s'.threads && Holds(s'.threads[s'.locks[n]], n)
    {
      assert s.locks[n] in s.threads && Holds(s.threads[s.locks[n]], n);
    }
  }

  lemma FreeObjOk(s: State, s': State, w: Tid, o: nat)
    requires o < |s.objs| && ObjOk(s, o) && Grows(s, s') && Same(s, s', s.objs[o].name)
    requires s'.objs[o] == s.objs[o].(live := s'.objs[o].live)
    requires s'.locks == s.locks
    requires forall u :: u in s.threads && u != w ==> u in s'.threads && s'.threads[u] == s.threads[u]
    requires w in s.threads ==> s.threads[w].calls == [] && w in s'.threads
    ensures ObjOk(s', o)
  {
    AdmittedFrame(s, s', s.objs[o].name, s.objs[o].admittedAt, s.objs[o].seen);
    assert At(s.exits, s.objs[o].name) <= At(s'.exits, s.objs[o].name);
  }

  /** What a watcher step may do to its object and to the exit record. */
  ghost predicate WatchActs(s: State, s': State, o: nat, p: Project, pc: WatchPc) {
    && o < |s.objs| && Watcher(o) in s'.threads
    && s' == s.(objs := s.objs[o := p], crashes := s'.crashes, exits := s'.exits, threads := s'.threads)
    && s'.threads == s.threads[Watcher(o) := s'.threads[Watcher(o)]]
    && p == s.objs[o].(status := p.status, flagRead := p.flagRead, exitIndex := p.exitIndex, restarts := p.restarts)
    && (s.objs[o].exitIndex.Some? ==> p.exitIndex == s.objs[o].exitIndex)
    && (forall n :: At(s.exits, n) <= At(s'.exits, n))
  }

  lemma WatchActsFrame(s: State, s': State, o: nat, p: Project, pc: WatchPc)
    requires Watcher(o) in s.threads && WatchActs(s, s', o, p, pc)
    ensures Grows(s, s') && forall n :: Same(s, s', n)
  {
  }

  lemma WatchObjOk(s: State, s': State, o: nat, p: Project, pc: WatchPc)
    requires Watcher(o) in s.threads && s.threads[Watcher(o)].calls == [] && WatchActs(s, s', o, p, pc)
    requires ObjOk(s, o) && Grows(s, s') && !p.live
    requires p.restarts <= 1 && (p.restarts > 0 ==> p.flagRead == Some(false))
    requires p.exitIndex != s.objs[o].exitIndex ==>
               p.exitIndex.Some? && p.exitIndex.value == |At(s.exits, p.name)| < |At(s'.exits, p.name)|
               && At(s'.exits, p.name)[p.exitIndex.value] == s.now
    ensures ObjOk(s', o)
  {
    AdmittedFrame(s, s', p.name, p.admittedAt, p.seen);
    assert At(s.exits, p.name) <= At(s'.exits, p.name);
  }

  lemma RecordedExits(s: State, n: Name)
    requires ExitsOk(s, n)
    ensures var s' := s.(crashes := s.crashes[n := Recorded(At(s.crashes, n), s.now, s.now)],
                         exits := s.exits[n := At(s.exits, n) + [s.now]]);
            ExitsOk(s', n)
  {
    RecordedAgrees(At(s.crashes, n), At(s.exits, n), s.now, s.now, s.now);
  }

  lemma WatchThreadOk(cfg: Config, s: State, s': State, o: nat, p: Project, pc: WatchPc)
    requires Watcher(o) in s.threads && WatchActs(s, s', o, p, pc)
    requires s'.threads[Watcher(o)] == Thread(Watch(pc), if pc == Restart then [Call(false, p.name, Lock, 0, 0)] else [])
    requires !p.live && (pc == Wait <==> p.flagRead == None)
    requires AutoOk(cfg, p, pc)
    requires pc == Backoff || pc == Restart || pc == MarkFailed ==> p.flagRead == Some(false)
    requires pc == Wait || pc.Record? || pc.Check? || pc == Backoff ==> p.restarts == 0
    requires pc == Wait || pc.Record? <==> p.exitIndex == None
    ensures ThreadOk(cfg, s', Watcher(o), s'.threads[Watcher(o)])
  {
  }

  /** A watcher step that does not record an exit. */
  lemma WatchStep(cfg: Config, s: State, s': State, o: nat, p: Project, pc: WatchPc)
    requires Inv(cfg, s) && Watcher(o) in s.threads && s.threads[Watcher(o)].calls == []
    requires WatchActs(s, s', o, p, pc) && ObjOk(s', o) && ThreadOk(cfg, s', Watcher(o), s'.threads[Watcher(o)])
    requires forall n :: ExitsOk(s', n)
    ensures Inv(cfg, s')
  {
    WatchActsFrame(s, s', o, p, pc);
    FreeStep(cfg, s, s', Watcher(o));
  }

  ghost predicate Watching(cfg: Config, s: State, o: nat) {
    && Inv(cfg, s) && CanRun(cfg, s, Watcher(o)) && s.threads[Watcher(o)].calls == []
  }

  lemma ExitsSame(s: State, s': State)
    requires (forall n :: ExitsOk(s, n)) && s'.crashes == s.crashes && s'.exits == s.exits && s'.now == s.now
    ensures forall n :: ExitsOk(s', n)
  {
    forall n
      ensures ExitsOk(s', n)
    {
      assert ExitsOk(s, n);
    }
  }

  lemma StepWait(cfg: Config, s: State, o: nat, choice: bool)
    requires Watching(cfg, s, o) && s.threads[Watcher(o)].base.pc.Wait?
    ensures Inv(cfg, RunWatch(cfg, s, o, choice))
  {
    var s' := RunWatch(cfg, s, o, choice);
    var p := s.objs[o];
    var auto := p.name in cfg.autoRestart && !p.manuallyStopped;
    assert ThreadOk(cfg, s, Watcher(o), s.threads[Watcher(o)]);
    assert ObjOk(s, o);
    WatchActsFrame(s, s', o, s'.objs[o], Record(auto));
    WatchObjOk(s, s', o, s'.objs[o], Record(auto));
    WatchThreadOk(cfg, s, s', o, s'.objs[o], Record(auto));
    ExitsSame(s, s');
    WatchStep(cfg, s, s', o, s'.objs[o], Record(auto));
  }

  lemma StepRecord(cfg: Config, s: State, o: nat, choice: bool)
    requires Watching(cfg, s, o) && s.threads[Watcher(o)].base.pc.Record?
    ensures Inv(cfg, RunWatch(cfg, s, o, choice))
  {
    hide CallOk, StackOk, ExitsOk, StartsOk, LocksOk, TableOk, Recorded;
    var s' := RunWatch(cfg, s, o, choice);
    var n := s.objs[o].name;
    var pc := Check(s.threads[Watcher(o)].base.pc.auto);
    assert ThreadOk(cfg, s, Watcher(o), s.threads[Watcher(o)]);
    assert ObjOk(s, o);
    WatchActsFrame(s, s', o, s'.objs[o], pc);
    WatchObjOk(s, s', o, s'.objs[o], pc);
    WatchThreadOk(cfg, s, s', o, s'.objs[o], pc);
    ExitsRecorded(s, s', n);
    WatchStep(cfg, s, s', o, s'.objs[o], pc);
  }

  lemma ExitsRecorded(s: State, s': State, n: Name)
    requires forall m :: ExitsOk(s, m)
    requires s'.crashes == s.crashes[n := Recorded(At(s.crashes, n), s.now, s.now)]
    requires s'.exits == s.exits[n := At(s.exits, n) + [s.now]] && s'.now == s.now
    ensures forall m :: ExitsOk(s', m)
  {
    hide Agrees, Sorted, Recorded;
    forall m
      ensures ExitsOk(s', m)
    {
      assert ExitsOk(s, m);
      if m == n {
        RecordedExits(s, n);
      }
    }
  }

  lemma StepAfterExit(cfg: Config, s: State, o: nat, choice: bool)
    requires Watching(cfg, s, o)
    requires var pc := s.threads[Watcher(o)].base.pc; pc.Check? || pc.Backoff? || pc.MarkFailed?
    ensures Inv(cfg, RunWatch(cfg, s, o, choice))
  {
    var s' := RunWatch(cfg, s, o, choice);
    var pc := s'.threads[Watcher(o)].base.pc;
    assert ThreadOk(cfg, s, Watcher(o), s.threads[Watcher(o)]);
    assert ObjOk(s, o);
    assert s.objs[o := s.objs[o]] == s.objs;
    WatchActsFrame(s, s', o, s'.objs[o], pc);
    WatchObjOk(s, s', o, s'.objs[o], pc);
    WatchThreadOk(cfg, s, s', o, s'.objs[o], pc);
    ExitsSame(s, s');
    WatchStep(cfg, s, s', o, s'.objs[o], pc);
  }

  lemma WatchKeeps(cfg: Config, s: State, o: nat, choice: bool)
    requires Watching(cfg, s, o)
    ensures Inv(cfg, RunWatch(cfg, s, o, choice))
  {
    var pc := s.threads[Watcher(o)].base.pc;
    if pc.Wait? {
      StepWait(cfg, s, o, choice);
    } else if pc.Record? {
      StepRecord(cfg, s, o, choice);
    } else {
      StepAfterExit(cfg, s, o, choice);
    }
  }

  lemma BeginKeeps(cfg: Config, s: State, k: nat, stop: bool, name: Name)
    requires Inv(cfg, s) && Client(k) !in s.threads
    ensures Inv(cfg, Do(cfg, s, Begin(k, stop, name)))
  {
    var s' := Do(cfg, s, Begin(k, stop, name));
    assert CallOk(cfg, s', Client(k), Call(stop, name, Lock, 0, 0));
    forall n
      ensures ExitsOk(s', n) && Same(s, s', n)
    {
      assert ExitsOk(s, n);
    }
    FreeStep(cfg, s, s', Client(k));
  }

  lemma WatchersExist(cfg: Config, s: State)
    requires Inv(cfg, s)
    ensures forall o: nat :: Watcher(o) in s.threads ==> o < |s.objs|
  {
    forall o: nat | Watcher(o) in s.threads
      ensures o < |s.objs|
    {
      assert ThreadOk(cfg, s, Watcher(o), s.threads[Watcher(o)]);
    }
  }

  lemma FreshWatcher(cfg: Config, s: State)
    requires Inv(cfg, s)
    ensures Watcher(|s.objs|) !in s.threads
  {
    WatchersExist(cfg, s);
  }

  lemma ExitKeeps(cfg: Config, s: State, o: nat)
    requires Inv(cfg, s) && o < |s.objs|
    ensures Inv(cfg, Do(cfg, s, Exit(o)))
  {
    var s' := Do(cfg, s, Exit(o));
    FreshWatcher(cfg, s);
    forall n
      ensures ExitsOk(s', n) && Same(s, s', n)
    {
      assert ExitsOk(s, n);
    }
    FreeStep(cfg, s, s', Watcher(|s.objs|));
  }

  lemma TickKeeps(cfg: Config, s: State, d: nat)
    requires Inv(cfg, s)
    ensures Inv(cfg, Do(cfg, s, Tick(d)))
  {
    var s' := Do(cfg, s, Tick(d));
    FreshWatcher(cfg, s);
    forall n
      ensures ExitsOk(s', n) && Same(s, s', n)
    {
      assert ExitsOk(s, n);
    }
    FreeStep(cfg, s, s', Watcher(|s.objs|));
  }

  lemma CallKeeps(cfg: Config, s: State, t: Tid, choice: bool)
    requires Poised(cfg, s, t)
    ensures Inv(cfg, RunCall(cfg, s, t, choice))
  {
    hide Inv;
    var c := Top(s.threads[t]);
    TopOk(cfg, s, t);
    match c.pc {
      case Lock => StepLock(cfg, s, t);
      case Circuit => StepCircuit(cfg, s, t);
      case Lookup => StepLookup(cfg, s, t);
      case Flag(_) => StepFlag(cfg, s, t);
      case Kill(_) => StepKill(cfg, s, t);
      case Mark(_) => StepMark(cfg, s, t);
      case ReadConfig => StepConfig(cfg, s, t, c.name in cfg.deps && choice);
      case Deps(k) => DepsKeeps(cfg, s, t, choice);
      case DepCheck(k, d) => DepCheckKeeps(cfg, s, t, choice);
      case Launch => LaunchKeeps(cfg, s, t, choice);
      case Publish(_) => StepPublish(cfg, s, t);
      case Unlock(_) => StepUnlock(cfg, s, t);
      case DepCall(_) =>
    }
  }

  lemma DepsKeeps(cfg: Config, s: State, t: Tid, choice: bool)
    requires Poised(cfg, s, t) && Top(s.threads[t]).pc.Deps?
    ensures Inv(cfg, RunCall(cfg, s, t, choice))
  {
    hide Inv;
    var c := Top(s.threads[t]);
    var deps, k := cfg.deps[c.name], c.pc.k;
    TopOk(cfg, s, t);
    if k == |deps| {
      StepDepsDone(cfg, s, t);
    } else if deps[k] in s.projects && s.projects[deps[k]] < |s.objs| && s.objs[s.projects[deps[k]]].name == deps[k] {
      StepDepSeen(cfg, s, t, s.projects[deps[k]]);
    } else {
      PushStep(cfg, s, t, k);
    }
  }

  lemma DepCheckKeeps(cfg: Config, s: State, t: Tid, choice: bool)
    requires Poised(cfg, s, t) && Top(s.threads[t]).pc.DepCheck?
    ensures Inv(cfg, RunCall(cfg, s, t, choice))
  {
    hide Inv;
    var c := Top(s.threads[t]);
    TopOk(cfg, s, t);
    if s.objs[c.pc.dep].status == Running {
      StepDepRuns(cfg, s, t);
    } else {
      PushStep(cfg, s, t, c.pc.k);
    }
  }

  lemma StepRefused(cfg: Config, s: State, t: Tid)
    requires Poised(cfg, s, t) && Top(s.threads[t]).pc.Launch?
    ensures Inv(cfg, Advance(s, t, Top(s.threads[t]).(pc := Unlock(false))))
  {
    var c := Top(s.threads[t]);
    TopOk(cfg, s, t);
    if t.Watcher? { WatcherSeen(cfg, s, t); }
    RefusedOk(cfg, s, t, c);
    PcStep(cfg, s, t, c.(pc := Unlock(false)));
  }

  lemma LaunchKeeps(cfg: Config, s: State, t: Tid, choice: bool)
    requires Poised(cfg, s, t) && Top(s.threads[t]).pc.Launch?
    ensures Inv(cfg, RunCall(cfg, s, t, choice))
  {
    hide Inv;
    if choice {
      StepLaunch(cfg, s, t);
    } else {
      StepRefused(cfg, s, t);
    }
  }

  // ---- whole runs -------------------------------------------------------------

  lemma StepKeeps(cfg: Config, s: State, a: Action)
    requires Inv(cfg, s) && Can(cfg, s, a)
    ensures Inv(cfg, Do(cfg, s, a))
  {
    match a
    case Begin(k, stop, name) => BeginKeeps(cfg, s, k, stop, name);
    case Run(t, choice) =>
      if s.threads[t].calls != [] {
        CallKeeps(cfg, s, t, choice);
      } else {
        WatchKeeps(cfg, s, t.obj, choice);
      }
    case Exit(o) => ExitKeeps(cfg, s, o);
    case Tick(d) => TickKeeps(cfg, s, d);
  }

  lemma {:induction false} RunKeeps(cfg: Config, s: State, run: seq<Action>)
    requires Inv(cfg, s) && Feasible(cfg, s, run)
    ensures Inv(cfg, Exec(cfg, s, run))
    decreases |run|
  {
    if run != [] {
      StepKeeps(cfg, s, run[0]);
      RunKeeps(cfg, Do(cfg, s, run[0]), run[1..]);
    }
  }

  lemma InitialOk(cfg: Config, now: int)
    ensures Inv(cfg, Initial(now))
  {
  }

  /** A call that does not wait for a lock somebody holds can go on. */
  lemma Unblocked(cfg: Config, s: State, t: Tid)
    requires Inv(cfg, s) && t in s.threads && s.threads[t].calls != []
    requires Top(s.threads[t]).pc == Lock ==> Top(s.threads[t]).name !in s.locks
    ensures CanRun(cfg, s, t)
  {
    assert ThreadOk(cfg, s, t, s.threads[t]);
    hide Inv;
    UnblockedThread(cfg, s, t);
  }

  lemma UnblockedThread(cfg: Config, s: State, t: Tid)
    requires t in s.threads && s.threads[t].calls != [] && ThreadOk(cfg, s, t, s.threads[t])
    requires Top(s.threads[t]).pc == Lock ==> Top(s.threads[t]).name !in s.locks
    ensures CanRun(cfg, s, t)
  {
    hide LiveOk, DepsOk, Admitted, PcOk;
    assert CallOk(cfg, s, t, Top(s.threads[t]));
  }
}
