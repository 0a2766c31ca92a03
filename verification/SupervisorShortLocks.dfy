/** The supervisor's short locks: the manager's `mu`, a crash state's `mu`, a project's `mu` and that of the port
    cache, taken under named locks and under each other. They never contribute to a deadlock, so that waiting can be studied
    on the named locks alone. */
module SupervisorShortLocks {
  import opened Wrappers

  datatype Lock = Named(name: string) | Manager | CrashState(name: string) | Project(obj: nat) | PortCache

  datatype Goroutine = Goroutine(held: set<Lock>, wants: Option<Lock>)

  /** What the code holds when it asks for a lock: any named locks; when it asks for a project's, perhaps the
      manager's; and when it looks up ports, perhaps the manager's and a project's. */
  predicate Nests(held: set<Lock>, lock: Lock) {
    forall h :: h in held ==>
      match h
      case Named(_) => true
      case Manager => lock.Project? || lock.PortCache?
      case Project(_) => lock.PortCache?
      case _ => false
  }

  datatype Action =
    | Start
    | Ask(t: nat, lock: Lock)
    | Get(t: nat)
    | Drop(t: nat, lock: Lock)

  predicate IsFree(s: seq<Goroutine>, lock: Lock) {
    forall u :: 0 <= u < |s| ==> lock !in s[u].held
  }

  predicate Can(s: seq<Goroutine>, a: Action) {
    match a
    case Start => true
    case Ask(t, lock) => t < |s| && s[t].wants == None && Nests(s[t].held, lock)
    case Get(t) => t < |s| && s[t].wants.Some? && IsFree(s, s[t].wants.value)
    case Drop(t, lock) => t < |s| && s[t].wants == None && lock in s[t].held
  }

  function Do(s: seq<Goroutine>, a: Action): seq<Goroutine>
    requires Can(s, a)
  {
    match a
    case Start => s + [Goroutine({}, None)]
    case Ask(t, lock) => s[t := s[t].(wants := Some(lock))]
    case Get(t) => s[t := Goroutine(s[t].held + {s[t].wants.value}, None)]
    case Drop(t, lock) => s[t := s[t].(held := s[t].held - {lock})]
  }

  predicate Feasible(s: seq<Goroutine>, run: seq<Action>)
    decreases |run|
  {
    run == [] || (Can(s, run[0]) && Feasible(Do(s, run[0]), run[1..]))
  }

  function Exec(s: seq<Goroutine>, run: seq<Action>): seq<Goroutine>
    requires Feasible(s, run)
    decreases |run|
  {
    if run == [] then s else Exec(Do(s, run[0]), run[1..])
  }

  ghost predicate Inv(s: seq<Goroutine>) {
    && (forall t :: 0 <= t < |s| && s[t].wants.Some? ==> Nests(s[t].held, s[t].wants.value))
    && forall t, u :: 0 <= t < u < |s| ==> s[t].held !! s[u].held
  }

  lemma {:induction false} RunKeeps(s: seq<Goroutine>, run: seq<Action>)
    requires Inv(s) && Feasible(s, run)
    ensures Inv(Exec(s, run))
    decreases |run|
  {
    if run != [] {
      RunKeeps(Do(s, run[0]), run[1..]);
    }
  }

  ghost predicate Waits(s: seq<Goroutine>, t: nat, u: nat) {
    t < |s| && u < |s| && s[t].wants.Some? && s[t].wants.value in s[u].held
  }

  /** Short locks are asked for in this order. */
  function Level(lock: Lock): nat {
    match lock
    case Named(_) => 0
    case Manager => 1
    case CrashState(_) => 1
    case Project(_) => 2
    case PortCache => 3
  }

  /** Whoever holds an awaited short lock waits, if at all, for one further on. */
  lemma LevelUp(s: seq<Goroutine>, t: nat, u: nat)
    requires Inv(s) && Waits(s, t, u) && !s[t].wants.value.Named? && s[u].wants.Some?
    ensures Level(s[t].wants.value) < Level(s[u].wants.value)
  {
    assert Nests(s[u].held, s[u].wants.value);
  }

  lemma {:induction false} LevelsUp(s: seq<Goroutine>, chain: seq<nat>, i: nat, j: nat)
    requires Inv(s) && 0 <= i < j < |chain| && forall x :: 0 < x < |chain| ==> Waits(s, chain[x - 1], chain[x])
    requires chain[i] < |s| && s[chain[i]].wants.Some? && !s[chain[i]].wants.value.Named?
    requires chain[j] < |s| && s[chain[j]].wants.Some?
    ensures Level(s[chain[i]].wants.value) < Level(s[chain[j]].wants.value)
    decreases j
  {
    assert Waits(s, chain[j - 1], chain[j]);
    if i < j - 1 {
      LevelsUp(s, chain, i, j - 1);
    }
    LevelUp(s, chain[j - 1], chain[j]);
  }

  /** Every circle of waiting goroutines, in every run, is one of named locks. */
  lemma CirclesAreNamed(run: seq<Action>, chain: seq<nat>, i: nat)
    requires Feasible([], run) && |chain| > 1 && chain[0] == chain[|chain| - 1] && i < |chain| - 1
    requires forall x :: 0 < x < |chain| ==> Waits(Exec([], run), chain[x - 1], chain[x])
    ensures var s := Exec([], run); chain[i] < |s| && s[chain[i]].wants.Some? && s[chain[i]].wants.value.Named?
  {
    var s, last := Exec([], run), |chain| - 1;
    RunKeeps([], run);
    assert Waits(s, chain[i + 1 - 1], chain[i + 1]) && Waits(s, chain[1 - 1], chain[1]);
    if !s[chain[i]].wants.value.Named? {
      LevelsUp(s, chain, i, last);
      if i > 0 { LevelsUp(s, chain, 0, i); }
    }
  }

  /** Whoever waits for a short lock waits, at most two goroutines removed, for one that can go on. */
  lemma ShortWaitsEnd(run: seq<Action>, t: nat, u: nat)
    requires Feasible([], run) && Waits(Exec([], run), t, u) && !Exec([], run)[t].wants.value.Named?
    ensures var s := Exec([], run);
            || GoesOn(s, u)
            || (exists v :: Waits(s, u, v) && GoesOn(s, v))
            || (exists v, w :: Waits(s, u, v) && Waits(s, v, w) && GoesOn(s, w))
  {
    var s := Exec([], run);
    RunKeeps([], run);
    if !GoesOn(s, u) {
      var v := Held(s, u);
      LevelUp(s, t, u);
      if !GoesOn(s, v) {
        var w := Held(s, v);
        LevelUp(s, u, v);
        if !GoesOn(s, w) {
          var x := Held(s, w);
          LevelUp(s, v, w);
        }
      }
    }
  }

  /** Waits for nothing, or for a lock nobody holds. */
  predicate GoesOn(s: seq<Goroutine>, v: nat) {
    v < |s| && (s[v].wants.None? || IsFree(s, s[v].wants.value))
  }

  lemma Held(s: seq<Goroutine>, u: nat) returns (v: nat)
    requires u < |s| && !GoesOn(s, u)
    ensures Waits(s, u, v)
  {
    v :| 0 <= v < |s| && s[u].wants.value in s[v].held;
  }
}
