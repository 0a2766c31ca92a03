/** The kernel host's manager: the capacity semaphore and the registry of live kernels, as
    interleaved steps of `Spawn` calls, their release goroutines, `Shutdown`, `Close` and GC. */
module KernelManager {

  type Id = string

  const MAX_KERNELS: nat := 16

  /** Where one `Spawn` call, or the release goroutine it leaves behind, stands. */
  datatype Phase =
    | Asked       // presence check passed, no token yet
    | Refused     // id in use, or the cap reached; never held a token
    | Starting    // token held, inside StartKernel
    | StartFailed // StartKernel returned an error, token still held
    | Started     // kernel up, not registered
    | RaceLost    // another call registered the id first
    | RaceDown    // its kernel was shut down, token still held
    | Registered  // release goroutine waits for the kernel's end
    | Unlisted    // release goroutine past the map, token still held
    | Released

  /** `live`: the process was started and neither exited nor was killed (`closed` unset).
      `done`: the process has exited. `wiped`, `taken` and `returned` are run history. */
  datatype Spawn = Spawn(id: Id, phase: Phase, live: bool, done: bool, wiped: bool, taken: nat, returned: nat)

  datatype State = State(kernels: map<Id, nat>, sem: nat, spawns: seq<Spawn>)

  const EMPTY: State := State(map[], 0, [])

  datatype Action =
    | Ask(id: Id)
    | Reserve(i: nat)
    | Boot(i: nat)
    | StartFails(i: nat)
    | StartSucceeds(i: nat)
    | Register(i: nat)
    | TearDown(i: nat)
    | Unlist(i: nat)
    | Release(i: nat)
    | Kill(i: nat)
    | Exit(i: nat)
    | Close

  predicate Holding(p: Phase) {
    p == Starting || p == StartFailed || p == Started || p == RaceLost || p == RaceDown || p == Registered || p == Unlisted
  }

  predicate In(s: State, i: nat, p: Phase) {
    i < |s.spawns| && s.spawns[i].phase == p
  }

  predicate Can(s: State, a: Action) {
    match a
    case Ask(_) => true
    case Reserve(i) => In(s, i, Asked)
    case Boot(i) => In(s, i, Starting)
    case StartFails(i) => In(s, i, Starting)
    case StartSucceeds(i) => In(s, i, Starting)
    case Register(i) => In(s, i, Started)
    case TearDown(i) => In(s, i, RaceLost)
    case Unlist(i) => In(s, i, Registered) && s.spawns[i].done
    case Release(i) => In(s, i, StartFailed) || In(s, i, RaceDown) || In(s, i, Unlisted)
    case Kill(i) => In(s, i, Registered)
    case Exit(i) => i < |s.spawns| && !In(s, i, Asked) && !In(s, i, Refused)
    case Close => true
  }

  function Set(s: State, i: nat, sp: Spawn): State
    requires i < |s.spawns|
  {
    s.(spawns := s.spawns[i := sp])
  }

  /** `Close` empties the map; the kernels it held are told to shut down afterwards. */
  function Wipe(sp: Spawn): Spawn {
    if sp.phase == Registered then sp.(wiped := true) else sp
  }

  function Do(s: State, a: Action): State
    requires Can(s, a)
  {
    match a
    case Ask(id) =>
      var phase := if id in s.kernels then Refused else Asked;
      s.(spawns := s.spawns + [Spawn(id, phase, false, false, false, 0, 0)])
    case Reserve(i) =>
      var sp := s.spawns[i];
      if s.sem < MAX_KERNELS then Set(s.(sem := s.sem + 1), i, sp.(phase := Starting, taken := sp.taken + 1))
      else Set(s, i, sp.(phase := Refused))
    case Boot(i) => Set(s, i, s.spawns[i].(live := !s.spawns[i].done))
    case StartFails(i) => Set(s, i, s.spawns[i].(phase := StartFailed, live := false))
    case StartSucceeds(i) => Set(s, i, s.spawns[i].(phase := Started))
    case Register(i) =>
      var sp := s.spawns[i];
      if sp.id in s.kernels then Set(s, i, sp.(phase := RaceLost))
      else Set(s.(kernels := s.kernels[sp.id := i]), i, sp.(phase := Registered))
    case TearDown(i) => Set(s, i, s.spawns[i].(phase := RaceDown, live := false))
    case Unlist(i) =>
      var sp := s.spawns[i];
      var kernels := if sp.id in s.kernels && s.kernels[sp.id] == i then s.kernels - {sp.id} else s.kernels;
      Set(s.(kernels := kernels), i, sp.(phase := Unlisted))
    case Release(i) =>
      var sp := s.spawns[i];
      Set(s.(sem := if s.sem > 0 then s.sem - 1 else 0), i, sp.(phase := Released, returned := sp.returned + 1))
    case Kill(i) => Set(s, i, s.spawns[i].(live := false))
    case Exit(i) => Set(s, i, s.spawns[i].(live := false, done := true))
    case Close => s.(kernels := map[], spawns := seq(|s.spawns|, i requires 0 <= i < |s.spawns| => Wipe(s.spawns[i])))
  }

  predicate Feasible(s: State, run: seq<Action>)
    decreases |run|
  {
    run == [] || (Can(s, run[0]) && Feasible(Do(s, run[0]), run[1..]))
  }

  function Exec(s: State, run: seq<Action>): State
    requires Feasible(s, run)
    decreases |run|
  {
    if run == [] then s else Exec(Do(s, run[0]), run[1..])
  }

  // ---- counting -----------------------------------------------------------------

  /** Tokens the calls and goroutines hold between them. */
  function Held(spawns: seq<Spawn>): nat {
    if spawns == [] then 0
    else Held(spawns[..|spawns| - 1]) + if Holding(spawns[|spawns| - 1].phase) then 1 else 0
  }

  function LiveKernels(spawns: seq<Spawn>): nat {
    if spawns == [] then 0
    else LiveKernels(spawns[..|spawns| - 1]) + if spawns[|spawns| - 1].live then 1 else 0
  }

  function HoldersAmong(spawns: seq<Spawn>, n: nat): set<nat>
    requires n <= |spawns|
  {
    set i: nat | i < n && Holding(spawns[i].phase) :: i
  }

  function LiveAmong(spawns: seq<Spawn>, n: nat): set<nat>
    requires n <= |spawns|
  {
    set i: nat | i < n && spawns[i].live :: i
  }

  lemma OneMoreHolder(spawns: seq<Spawn>, k: nat)
    requires k < |spawns|
    ensures |HoldersAmong(spawns, k + 1)| == |HoldersAmong(spawns, k)| + if Holding(spawns[k].phase) then 1 else 0
  {
    hide Holding;
    var before, after := HoldersAmong(spawns, k), HoldersAmong(spawns, k + 1);
    if Holding(spawns[k].phase) {
      assert after == before + {k};
    } else {
      assert after == before;
    }
  }

  lemma OneMoreLive(spawns: seq<Spawn>, k: nat)
    requires k < |spawns|
    ensures |LiveAmong(spawns, k + 1)| == |LiveAmong(spawns, k)| + if spawns[k].live then 1 else 0
  {
    var before, after := LiveAmong(spawns, k), LiveAmong(spawns, k + 1);
    if spawns[k].live {
      assert after == before + {k};
    } else {
      assert after == before;
    }
  }

  /** Both count what they say. */
  lemma {:induction false} CountedOnce(spawns: seq<Spawn>, n: nat)
    requires n <= |spawns|
    ensures Held(spawns[..n]) == |HoldersAmong(spawns, n)| && LiveKernels(spawns[..n]) == |LiveAmong(spawns, n)|
  {
    if n > 0 {
      CountedOnce(spawns, n - 1);
      OneMoreHolder(spawns, n - 1);
      OneMoreLive(spawns, n - 1);
      hide HoldersAmong, LiveAmong, Holding;
      assert spawns[..n][..n - 1] == spawns[..n - 1];
    }
  }

  lemma {:induction false} HeldUpdate(spawns: seq<Spawn>, i: nat, sp: Spawn)
    requires i < |spawns|
    ensures Held(spawns[i := sp]) == Held(spawns) + (if Holding(sp.phase) then 1 else 0) - (if Holding(spawns[i].phase) then 1 else 0)
  {
    var n := |spawns| - 1;
    if i < n {
      HeldUpdate(spawns[..n], i, sp);
      assert spawns[i := sp][..n] == spawns[..n][i := sp];
    } else {
      assert spawns[i := sp][..n] == spawns[..n];
    }
  }

  lemma {:induction false} HeldWiped(spawns: seq<Spawn>, wiped: seq<Spawn>)
    requires |wiped| == |spawns| && forall i :: 0 <= i < |spawns| ==> wiped[i] == Wipe(spawns[i])
    ensures Held(wiped) == Held(spawns)
  {
    if spawns != [] {
      HeldWiped(spawns[..|spawns| - 1], wiped[..|spawns| - 1]);
    }
  }

  lemma {:induction false} LiveAtMostHeld(spawns: seq<Spawn>)
    requires forall i :: 0 <= i < |spawns| && spawns[i].live ==> Holding(spawns[i].phase)
    ensures LiveKernels(spawns) <= Held(spawns)
  {
    if spawns != [] {
      LiveAtMostHeld(spawns[..|spawns| - 1]);
    }
  }

  // ---- the invariant --------------------------------------------------------------

  ghost predicate SpawnOk(sp: Spawn) {
    && (sp.live ==> !sp.done && (sp.phase == Starting || sp.phase == Started || sp.phase == RaceLost || sp.phase == Registered))
    && sp.taken == (if sp.phase == Asked || sp.phase == Refused then 0 else 1)
    && sp.returned == (if sp.phase == Released then 1 else 0)
  }

  /** The entry of `id` is the one registered kernel of that id not removed by a `Close` since. */
  ghost predicate ListedOk(s: State, i: nat)
    requires i < |s.spawns|
  {
    var sp := s.spawns[i];
    sp.phase == Registered && !sp.wiped <==> sp.id in s.kernels && s.kernels[sp.id] == i
  }

  ghost predicate Inv(s: State) {
    && s.sem == Held(s.spawns) <= MAX_KERNELS
    && (forall i :: 0 <= i < |s.spawns| ==> SpawnOk(s.spawns[i]) && ListedOk(s, i))
    && (forall id :: id in s.kernels ==> s.kernels[id] < |s.spawns| && s.spawns[s.kernels[id]].id == id)
    && (forall i :: 0 <= i < |s.spawns| && s.spawns[i].wiped ==> s.spawns[i].phase in {Registered, Unlisted, Released})
  }

  /** A step of one call that leaves the map alone. */
  lemma PhaseStep(s: State, i: nat, sp: Spawn, sem: nat)
    requires Inv(s) && i < |s.spawns| && sp.id == s.spawns[i].id && sp.wiped == s.spawns[i].wiped
    requires SpawnOk(sp) && (sp.phase == Registered <==> s.spawns[i].phase == Registered)
    requires sp.wiped ==> sp.phase in {Registered, Unlisted, Released}
    requires sem == s.sem + (if Holding(sp.phase) then 1 else 0) - (if Holding(s.spawns[i].phase) then 1 else 0) <= MAX_KERNELS
    ensures Inv(Set(s.(sem := sem), i, sp))
  {
    var s' := Set(s.(sem := sem), i, sp);
    HeldUpdate(s.spawns, i, sp);
    forall j | 0 <= j < |s.spawns|
      ensures SpawnOk(s'.spawns[j]) && ListedOk(s', j)
    {
      assert SpawnOk(s.spawns[j]) && ListedOk(s, j);
    }
  }

  lemma RegisterStep(s: State, i: nat)
    requires Inv(s) && In(s, i, Started) && s.spawns[i].id !in s.kernels
    ensures Inv(Do(s, Register(i)))
  {
    var s' := Do(s, Register(i));
    HeldUpdate(s.spawns, i, s'.spawns[i]);
    forall j | 0 <= j < |s.spawns|
      ensures SpawnOk(s'.spawns[j]) && ListedOk(s', j)
    {
      assert SpawnOk(s.spawns[j]) && ListedOk(s, j);
    }
  }

  lemma UnlistStep(s: State, i: nat)
    requires Inv(s) && In(s, i, Registered) && s.spawns[i].done
    ensures Inv(Do(s, Unlist(i)))
  {
    var s' := Do(s, Unlist(i));
    HeldUpdate(s.spawns, i, s'.spawns[i]);
    forall j | 0 <= j < |s.spawns|
      ensures SpawnOk(s'.spawns[j]) && ListedOk(s', j)
    {
      assert SpawnOk(s.spawns[j]) && ListedOk(s, j);
    }
  }

  lemma CloseStep(s: State)
    requires Inv(s)
    ensures Inv(Do(s, Close))
  {
    var s' := Do(s, Close);
    HeldWiped(s.spawns, s'.spawns);
    forall i | 0 <= i < |s.spawns|
      ensures SpawnOk(s'.spawns[i]) && ListedOk(s', i)
    {
      assert SpawnOk(s.spawns[i]) && s'.spawns[i] == Wipe(s.spawns[i]);
    }
  }

  lemma AskStep(s: State, id: Id)
    requires Inv(s)
    ensures Inv(Do(s, Ask(id)))
  {
    var s' := Do(s, Ask(id));
    assert s'.spawns[..|s.spawns|] == s.spawns;
    forall j | 0 <= j < |s'.spawns|
      ensures SpawnOk(s'.spawns[j]) && ListedOk(s', j)
    {
      if j < |s.spawns| { assert SpawnOk(s.spawns[j]) && ListedOk(s, j); }
    }
  }

  lemma StepKeeps(s: State, a: Action)
    requires Inv(s) && Can(s, a)
    ensures Inv(Do(s, a))
  {
    match a {
      case Ask(id) => AskStep(s, id);
      case Close => CloseStep(s);
      case Unlist(i) => UnlistStep(s, i);
      case Register(i) =>
        if s.spawns[i].id in s.kernels {
          assert SpawnOk(s.spawns[i]);
          PhaseStep(s, i, s.spawns[i].(phase := RaceLost), s.sem);
        } else {
          RegisterStep(s, i);
        }
      case Release(i) =>
        ReleaseStep(s, i);
      case Reserve(i) =>
        assert SpawnOk(s.spawns[i]);
        PhaseStep(s, i, Do(s, a).spawns[i], Do(s, a).sem);
      case _ =>
        assert SpawnOk(s.spawns[a.i]);
        PhaseStep(s, a.i, Do(s, a).spawns[a.i], s.sem);
    }
  }

  lemma ReleaseStep(s: State, i: nat)
    requires Inv(s) && Can(s, Release(i))
    ensures s.sem > 0 && Inv(Do(s, Release(i)))
  {
    assert SpawnOk(s.spawns[i]);
    HeldUpdate(s.spawns, i, s.spawns[i].(phase := Released));
    PhaseStep(s, i, Do(s, Release(i)).spawns[i], s.sem - 1);
  }

  lemma {:induction false} RunKeeps(s: State, run: seq<Action>)
    requires Inv(s) && Feasible(s, run)
    ensures Inv(Exec(s, run))
    decreases |run|
  {
    if run != [] {
      StepKeeps(s, run[0]);
      RunKeeps(Do(s, run[0]), run[1..]);
    }
  }

  // ---- what every run keeps ---------------------------------------------------------

  /** Tokens held in `sem` are exactly those of spawns in flight and kernels not yet released,
      and no more than `MAX_KERNELS` kernels are ever live. */
  lemma TokensConserved(run: seq<Action>)
    requires Feasible(EMPTY, run)
    ensures var s := Exec(EMPTY, run); s.sem == Held(s.spawns) && LiveKernels(s.spawns) <= s.sem <= 16
  {
    RunKeeps(EMPTY, run);
    hide *;
    LiveWithinTokens(Exec(EMPTY, run));
  }

  lemma LiveWithinTokens(s: State)
    requires Inv(s)
    ensures s.sem == Held(s.spawns) && LiveKernels(s.spawns) <= s.sem <= 16
  {
    hide ListedOk, Held, LiveKernels;
    forall i | 0 <= i < |s.spawns| && s.spawns[i].live
      ensures Holding(s.spawns[i].phase)
    {
      assert SpawnOk(s.spawns[i]);
    }
    LiveAtMostHeld(s.spawns);
  }

  /** Every call that took a token gives it back exactly once by the time it is finished, and
      no call gives back a token it does not hold. */
  lemma ReleasedExactlyOnce(run: seq<Action>, i: nat)
    requires Feasible(EMPTY, run) && i < |Exec(EMPTY, run).spawns|
    ensures var sp := Exec(EMPTY, run).spawns[i];
            && sp.returned <= sp.taken <= 1
            && (sp.returned == sp.taken <==> !Holding(sp.phase))
            && (sp.phase == Released ==> sp.taken == 1 && sp.returned == 1)
  {
    RunKeeps(EMPTY, run);
    hide *;
    TokenOnce(Exec(EMPTY, run), i);
  }

  lemma TokenOnce(s: State, i: nat)
    requires Inv(s) && i < |s.spawns|
    ensures var sp := s.spawns[i];
            && sp.returned <= sp.taken <= 1
            && (sp.returned == sp.taken <==> !Holding(sp.phase))
            && (sp.phase == Released ==> sp.taken == 1 && sp.returned == 1)
  {
    assert SpawnOk(s.spawns[i]);
  }

  /** `Get` finds a kernel exactly while it is registered, its end has not been handled by its own
      goroutine and no `Close` came after; and then it finds that kernel and no other. */
  lemma RegistryExact(run: seq<Action>, i: nat)
    requires Feasible(EMPTY, run) && i < |Exec(EMPTY, run).spawns|
    ensures var s := Exec(EMPTY, run);
            s.spawns[i].phase == Registered && !s.spawns[i].wiped
            <==> s.spawns[i].id in s.kernels && s.kernels[s.spawns[i].id] == i
  {
    RunKeeps(EMPTY, run);
    assert ListedOk(Exec(EMPTY, run), i);
  }

  /** Registered, and neither unlisted by its own goroutine nor taken out by a `Close`. */
  predicate Entered(s: State, j: nat) {
    In(s, j, Registered) && !s.spawns[j].wiped
  }

  predicate GoneFor(s: State, j: nat) {
    j < |s.spawns| && (s.spawns[j].wiped || s.spawns[j].phase == Unlisted || s.spawns[j].phase == Released)
  }

  lemma EnteredStep(s: State, a: Action, j: nat)
    requires Can(s, a)
    ensures Entered(s, j) ==> if a == Close || a == Unlist(j) then GoneFor(Do(s, a), j) else Entered(Do(s, a), j)
    ensures GoneFor(s, j) ==> GoneFor(Do(s, a), j) && !Entered(s, j)
  {}

  lemma {:induction false} StaysGone(s: State, run: seq<Action>, j: nat)
    requires Feasible(s, run) && GoneFor(s, j)
    ensures !Entered(Exec(s, run), j)
    decreases |run|
  {
    if run == [] {
      EnteredStep(s, Close, j);
    } else {
      EnteredStep(s, run[0], j);
      hide Can, Do, GoneFor, Entered;
      StaysGone(Do(s, run[0]), run[1..], j);
    }
  }

  lemma {:induction false} StaysEntered(s: State, run: seq<Action>, j: nat)
    requires Feasible(s, run) && Entered(s, j)
    ensures Entered(Exec(s, run), j) <==> Close !in run && Unlist(j) !in run
    decreases |run|
  {
    hide Can, Do, GoneFor, Entered;
    if run != [] {
      EnteredStep(s, run[0], j);
      assert run == [run[0]] + run[1..];
      if run[0] == Close || run[0] == Unlist(j) {
        StaysGone(Do(s, run[0]), run[1..], j);
      } else {
        StaysEntered(Do(s, run[0]), run[1..], j);
      }
    }
  }

  predicate Listed(s: State, j: nat) {
    j < |s.spawns| && s.spawns[j].id in s.kernels && s.kernels[s.spawns[j].id] == j
  }

  /** Whatever other calls and goroutines do, those of earlier kernels of its id among them, a listed kernel
      stays findable exactly until its own goroutine unlists it or a `Close` comes. */
  lemma OldWatcherSparesSuccessor(before: seq<Action>, after: seq<Action>, j: nat)
    requires Feasible(EMPTY, before) && Feasible(Exec(EMPTY, before), after) && Listed(Exec(EMPTY, before), j)
    ensures Listed(Exec(Exec(EMPTY, before), after), j) <==> Close !in after && Unlist(j) !in after
  {
    var s := Exec(EMPTY, before);
    RunKeeps(EMPTY, before);
    RunKeeps(s, after);
    assert ListedOk(s, j);
    StaysEntered(s, after, j);
    SpawnStays(s, after, j);
    assert ListedOk(Exec(s, after), j);
  }

  lemma {:induction false} SpawnStays(s: State, run: seq<Action>, j: nat)
    requires Feasible(s, run) && j < |s.spawns|
    ensures j < |Exec(s, run).spawns|
    decreases |run|
  {
    if run != [] {
      SpawnStays(Do(s, run[0]), run[1..], j);
    }
  }

  /** An emptied slot is usable again: with a token free, the next reservation gets it. */
  lemma CapacityRefusesOnlyWhenFull(run: seq<Action>, i: nat)
    requires Feasible(EMPTY, run) && Can(Exec(EMPTY, run), Reserve(i))
    ensures var s := Exec(EMPTY, run);
            Do(s, Reserve(i)).spawns[i].phase == Refused <==> Held(s.spawns) == 16
  {
    RunKeeps(EMPTY, run);
  }

  // ---- what calls are told ------------------------------------------------------------

  /** A call finds its id taken exactly if some registered kernel of it has not been taken out by `Close`. */
  lemma RefusedIffTaken(run: seq<Action>, id: Id)
    requires Feasible(EMPTY, run)
    ensures var s := Exec(EMPTY, run);
            var s' := Do(s, Ask(id));
            && |s'.spawns| == |s.spawns| + 1
            && s'.spawns[|s.spawns|].phase ==
               if exists i :: 0 <= i < |s.spawns| && s.spawns[i].id == id && s.spawns[i].phase == Registered && !s.spawns[i].wiped
               then Refused else Asked
  {
    var s := Exec(EMPTY, run);
    RunKeeps(EMPTY, run);
    TakenIff(s, id);
  }

  lemma TakenIff(s: State, id: Id)
    requires Inv(s)
    ensures id in s.kernels <==>
            exists i :: 0 <= i < |s.spawns| && s.spawns[i].id == id && s.spawns[i].phase == Registered && !s.spawns[i].wiped
  {
    if id in s.kernels {
      assert ListedOk(s, s.kernels[id]);
    }
    if i :| 0 <= i < |s.spawns| && s.spawns[i].id == id && s.spawns[i].phase == Registered && !s.spawns[i].wiped {
      assert ListedOk(s, i);
    }
  }

  /** And the call that started a kernel loses the race at its registration exactly in the same case. */
  lemma RaceLostIffTaken(run: seq<Action>, k: nat)
    requires Feasible(EMPTY, run) && Can(Exec(EMPTY, run), Register(k))
    ensures var s := Exec(EMPTY, run);
            Do(s, Register(k)).spawns[k].phase ==
            if exists i :: 0 <= i < |s.spawns| && s.spawns[i].id == s.spawns[k].id && s.spawns[i].phase == Registered && !s.spawns[i].wiped
            then RaceLost else Registered
  {
    var s := Exec(EMPTY, run);
    RunKeeps(EMPTY, run);
    TakenIff(s, s.spawns[k].id);
  }

  /** The last call of `s` goes on to `sp`. */
  function Last(s: State, sp: Spawn): State {
    s.(spawns := s.spawns + [sp])
  }

  lemma LastSet(s: State, sp: Spawn, sp': Spawn)
    ensures Last(s, sp).spawns[|s.spawns|] == sp && Set(Last(s, sp), |s.spawns|, sp') == Last(s, sp')
  {}

  lemma Then(s: State, a: Action, rest: seq<Action>)
    requires Can(s, a) && Feasible(Do(s, a), rest)
    ensures Feasible(s, [a] + rest) && Exec(s, [a] + rest) == Exec(Do(s, a), rest)
  {
    hide Can, Do;
    assert ([a] + rest)[1..] == rest;
  }

  /** In every reachable state, an undisturbed `Spawn` of an id that is not taken, with fewer than 16 tokens
      held, ends with a live, registered and listed kernel and one more token held. */
  lemma SpawnSucceeds(before: seq<Action>, id: Id)
    requires Feasible(EMPTY, before)
    requires var s := Exec(EMPTY, before);
             && Held(s.spawns) < 16
             && forall i :: 0 <= i < |s.spawns| && s.spawns[i].id == id && s.spawns[i].phase == Registered ==> s.spawns[i].wiped
    ensures var s := Exec(EMPTY, before);
            var i := |s.spawns|;
            var run := [Ask(id), Reserve(i), Boot(i), StartSucceeds(i), Register(i)];
            && Feasible(s, run)
            && Exec(s, run) == State(s.kernels[id := i], s.sem + 1, s.spawns + [Spawn(id, Registered, true, false, false, 1, 0)])
            && Listed(Exec(s, run), i)
  {
    var s := Exec(EMPTY, before);
    RunKeeps(EMPTY, before);
    TakenIff(s, id);
    SpawnFrom(s, id);
  }

  lemma SpawnFrom(s: State, id: Id)
    requires id !in s.kernels && s.sem < 16
    ensures var i := |s.spawns|;
            var run := [Ask(id), Reserve(i), Boot(i), StartSucceeds(i), Register(i)];
            && Feasible(s, run)
            && Exec(s, run) == State(s.kernels[id := i], s.sem + 1, s.spawns + [Spawn(id, Registered, true, false, false, 1, 0)])
  {
    hide Do, Can, Last;
    var i, r := |s.spawns|, s.(sem := s.sem + 1);
    var sp := Spawn(id, Starting, false, false, false, 1, 0);
    var asked, started := Spawn(id, Asked, false, false, false, 0, 0), Last(r, sp.(live := true, phase := Started));
    SpawnSteps(s, id);
    LastIs(r.(kernels := s.kernels[id := i]), sp.(live := true, phase := Registered));
    Then(started, Register(i), []);
    Then(Last(r, sp.(live := true)), StartSucceeds(i), [Register(i)]);
    Then(Last(r, sp), Boot(i), [StartSucceeds(i), Register(i)]);
    Then(Last(s, asked), Reserve(i), [Boot(i), StartSucceeds(i), Register(i)]);
    Then(s, Ask(id), [Reserve(i), Boot(i), StartSucceeds(i), Register(i)]);
  }

  lemma LastIs(s: State, sp: Spawn)
    ensures Last(s, sp) == s.(spawns := s.spawns + [sp])
  {}

  lemma SpawnSteps(s: State, id: Id)
    requires id !in s.kernels && s.sem < 16
    ensures var i, r := |s.spawns|, s.(sem := s.sem + 1);
            var sp := Spawn(id, Starting, false, false, false, 1, 0);
            var asked, up := Last(s, Spawn(id, Asked, false, false, false, 0, 0)), Last(r, sp.(live := true));
            var started := Last(r, sp.(live := true, phase := Started));
            && Can(s, Ask(id)) && Do(s, Ask(id)) == asked
            && Can(asked, Reserve(i)) && Do(asked, Reserve(i)) == Last(r, sp)
            && Can(Last(r, sp), Boot(i)) && Do(Last(r, sp), Boot(i)) == up
            && Can(up, StartSucceeds(i)) && Do(up, StartSucceeds(i)) == started
            && Can(started, Register(i))
            && Do(started, Register(i)) == Last(r.(kernels := s.kernels[id := i]), sp.(live := true, phase := Registered))
  {
    hide Feasible, Exec;
    var sp, r := Spawn(id, Starting, false, false, false, 1, 0), s.(sem := s.sem + 1);
    LastSet(s, Spawn(id, Asked, false, false, false, 0, 0), sp);
    LastSet(r, sp, sp.(live := true));
    LastSet(r, sp.(live := true), sp.(live := true, phase := Started));
    LastSet(r, sp.(live := true, phase := Started), sp.(live := true, phase := Registered));
  }

  /** In every reachable state, when the process of a registered kernel ends, its goroutine gives the token back
      and takes the entry out, if it is still there; no other entry and no other call is touched. */
  lemma ExitReleases(before: seq<Action>, i: nat)
    requires Feasible(EMPTY, before) && In(Exec(EMPTY, before), i, Registered)
    ensures var s := Exec(EMPTY, before);
            var sp, run := s.spawns[i], [Exit(i), Unlist(i), Release(i)];
            && Feasible(s, run) && s.sem > 0
            && Exec(s, run) == State(if Listed(s, i) then s.kernels - {sp.id} else s.kernels, s.sem - 1,
                                     s.spawns[i := sp.(phase := Released, live := false, done := true, returned := 1)])
  {
    var s := Exec(EMPTY, before);
    RunKeeps(EMPTY, before);
    HeldOne(s.spawns, i);
    assert SpawnOk(s.spawns[i]);
    hide Inv;
    ReleaseFrom(s, i);
  }

  /** The two other ways out: a kernel that does not start, and one that loses the race for its id and is shut
      down. Both end with the token given back and the registry as it was. */
  lemma FailuresRelease(before: seq<Action>, i: nat)
    requires Feasible(EMPTY, before)
    ensures var s := Exec(EMPTY, before);
            In(s, i, Starting) ==>
              var run := [StartFails(i), Release(i)];
              && s.sem > 0 && Feasible(s, run)
              && Exec(s, run) == State(s.kernels, s.sem - 1, s.spawns[i := s.spawns[i].(phase := Released, live := false, returned := 1)])
    ensures var s := Exec(EMPTY, before);
            In(s, i, Started) && s.spawns[i].id in s.kernels ==>
              var run := [Register(i), TearDown(i), Release(i)];
              && s.sem > 0 && Feasible(s, run)
              && Exec(s, run) == State(s.kernels, s.sem - 1, s.spawns[i := s.spawns[i].(phase := Released, live := false, returned := 1)])
  {
    var s := Exec(EMPTY, before);
    RunKeeps(EMPTY, before);
    if In(s, i, Starting) || In(s, i, Started) {
      HeldOne(s.spawns, i);
      assert SpawnOk(s.spawns[i]);
      hide Inv, Feasible, Exec;
      FailedFrom(s, i);
    }
  }

  lemma FailedFrom(s: State, i: nat)
    requires s.sem > 0 && (In(s, i, Starting) || In(s, i, Started)) && s.spawns[i].returned == 0
    ensures var end := State(s.kernels, s.sem - 1, s.spawns[i := s.spawns[i].(phase := Released, live := false, returned := 1)]);
            && (In(s, i, Starting) ==> var run := [StartFails(i), Release(i)]; Feasible(s, run) && Exec(s, run) == end)
            && (In(s, i, Started) && s.spawns[i].id in s.kernels ==>
                  var run := [Register(i), TearDown(i), Release(i)]; Feasible(s, run) && Exec(s, run) == end)
  {
    hide Do, Can;
    var sp := s.spawns[i];
    FailureSteps(s, i);
    if In(s, i, Starting) {
      var failed := Set(s, i, sp.(phase := StartFailed, live := false));
      Then(failed, Release(i), []);
      Then(s, StartFails(i), [Release(i)]);
    } else if sp.id in s.kernels {
      var lost, down := Set(s, i, sp.(phase := RaceLost)), Set(s, i, sp.(phase := RaceDown, live := false));
      Then(down, Release(i), []);
      Then(lost, TearDown(i), [Release(i)]);
      Then(s, Register(i), [TearDown(i), Release(i)]);
    }
  }

  lemma FailureSteps(s: State, i: nat)
    requires s.sem > 0 && (In(s, i, Starting) || In(s, i, Started)) && s.spawns[i].returned == 0
    ensures var sp := s.spawns[i];
            var end := State(s.kernels, s.sem - 1, s.spawns[i := sp.(phase := Released, live := false, returned := 1)]);
            var failed, lost, down := Set(s, i, sp.(phase := StartFailed, live := false)), Set(s, i, sp.(phase := RaceLost)),
                                      Set(s, i, sp.(phase := RaceDown, live := false));
            && Can(failed, Release(i)) && Do(failed, Release(i)) == end && Can(down, Release(i)) && Do(down, Release(i)) == end
            && Can(lost, TearDown(i)) && Do(lost, TearDown(i)) == down
            && (In(s, i, Starting) ==> Can(s, StartFails(i)) && Do(s, StartFails(i)) == failed)
            && (In(s, i, Started) && sp.id in s.kernels ==> Can(s, Register(i)) && Do(s, Register(i)) == lost)
  {
    var sp := s.spawns[i];
    SetTwice(s, i, sp.(phase := StartFailed, live := false), sp.(phase := Released, live := false, returned := 1));
    SetTwice(s, i, sp.(phase := RaceDown, live := false), sp.(phase := Released, live := false, returned := 1));
    SetTwice(s, i, sp.(phase := RaceLost), sp.(phase := RaceDown, live := false));
  }

  lemma SetTwice(s: State, i: nat, sp: Spawn, sp': Spawn)
    requires i < |s.spawns|
    ensures Set(s, i, sp).spawns[i] == sp && Set(Set(s, i, sp), i, sp') == Set(s, i, sp')
    ensures Set(s, i, sp).spawns[i := sp'] == s.spawns[i := sp']
  {}

  lemma {:induction false} HeldOne(spawns: seq<Spawn>, i: nat)
    requires i < |spawns| && Holding(spawns[i].phase)
    ensures Held(spawns) > 0
  {
    if i < |spawns| - 1 {
      HeldOne(spawns[..|spawns| - 1], i);
    }
  }

  lemma ReleaseFrom(s: State, i: nat)
    requires In(s, i, Registered) && s.sem > 0 && s.spawns[i].returned == 0
    ensures var sp, run := s.spawns[i], [Exit(i), Unlist(i), Release(i)];
            && Feasible(s, run)
            && Exec(s, run) == State(if Listed(s, i) then s.kernels - {sp.id} else s.kernels, s.sem - 1,
                                     s.spawns[i := sp.(phase := Released, live := false, done := true, returned := 1)])
  {
    hide Do, Can, Listed;
    var sp := s.spawns[i].(live := false, done := true);
    var kernels := if Listed(s, i) then s.kernels - {sp.id} else s.kernels;
    var ended, unlisted := Set(s, i, sp), Set(s.(kernels := kernels), i, sp.(phase := Unlisted));
    ReleaseSteps(s, i);
    Then(unlisted, Release(i), []);
    Then(ended, Unlist(i), [Release(i)]);
    Then(s, Exit(i), [Unlist(i), Release(i)]);
  }

  lemma ReleaseSteps(s: State, i: nat)
    requires In(s, i, Registered) && s.sem > 0 && s.spawns[i].returned == 0
    ensures var sp := s.spawns[i].(live := false, done := true);
            var kernels := if Listed(s, i) then s.kernels - {sp.id} else s.kernels;
            var ended, unlisted := Set(s, i, sp), Set(s.(kernels := kernels), i, sp.(phase := Unlisted));
            && Can(s, Exit(i)) && Do(s, Exit(i)) == ended
            && Can(ended, Unlist(i)) && Do(ended, Unlist(i)) == unlisted
            && Can(unlisted, Release(i))
            && Do(unlisted, Release(i)) == State(kernels, s.sem - 1, s.spawns[i := sp.(phase := Released, returned := 1)])
  {
    hide Feasible, Exec;
    var sp := s.spawns[i].(live := false, done := true);
    assert s.spawns[i := sp][i := sp.(phase := Unlisted)] == s.spawns[i := sp.(phase := Unlisted)];
    assert s.spawns[i := sp.(phase := Unlisted)][i := sp.(phase := Released, returned := 1)] == s.spawns[i := sp.(phase := Released, returned := 1)];
  }

  // ---- the manager object -------------------------------------------------------------

  const KERNEL_IDLE_EXPIRY: int := 30 * 60 * 1_000_000_000

  ghost predicate Distinct(list: seq<nat>) {
    forall i, j :: 0 <= i < j < |list| ==> list[i] != list[j]
  }

  datatype Found = NotFound | Found(entry: nat)

  /** The fields under `mu` and the semaphore; `spawns` is what the goroutines are doing. An
      entry is known by the number of the `Spawn` call that made it. */
  class Manager {
    var kernels: map<Id, nat>
    var sem: nat
    var lastUsed: map<nat, int>
    ghost var spawns: seq<Spawn>

    ghost function Abs(): State
      reads this
    {
      State(kernels, sem, spawns)
    }

    ghost predicate Valid()
      reads this
    {
      Inv(Abs()) && forall id :: id in kernels ==> kernels[id] in lastUsed
    }

    constructor ()
      ensures Valid() && Abs() == EMPTY
    {
      kernels, sem, lastUsed, spawns := map[], 0, map[], [];
    }

    /** The presence check that opens `Spawn`. */
    method Ask(id: Id) returns (free: bool)
      requires Valid()
      modifies this`spawns
      ensures Valid() && Abs() == Do(old(Abs()), Action.Ask(id))
      ensures free == (spawns[|spawns| - 1].phase == Asked)
      ensures free <==> forall i :: 0 <= i < |old(spawns)| && old(spawns)[i].id == id && old(spawns)[i].phase == Registered ==> old(spawns)[i].wiped
    {
      free := id !in kernels;
      TakenIff(Abs(), id);
      AskStep(Abs(), id);
      spawns := Do(Abs(), Action.Ask(id)).spawns;
    }

    /** The non-blocking send on `sem`. */
    method Reserve(i: nat) returns (ok: bool)
      requires Valid() && Can(Abs(), Action.Reserve(i))
      modifies this`sem, this`spawns
      ensures Valid() && Abs() == Do(old(Abs()), Action.Reserve(i))
      ensures ok == (spawns[i].phase == Starting)
    {
      ghost var next := Do(Abs(), Action.Reserve(i));
      StepKeeps(Abs(), Action.Reserve(i));
      ok := sem < MAX_KERNELS;
      if ok {
        sem := sem + 1;
      }
      spawns := next.spawns;
    }

    /** The second critical section of `Spawn`. */
    method Register(id: Id, i: nat, now: int) returns (ok: bool)
      requires Valid() && Can(Abs(), Action.Register(i)) && spawns[i].id == id
      modifies this`kernels, this`lastUsed, this`spawns
      ensures Valid() && Abs() == Do(old(Abs()), Action.Register(i))
      ensures ok == (spawns[i].phase == Registered)
      ensures ok <==> forall j :: 0 <= j < |old(spawns)| && old(spawns)[j].id == id && old(spawns)[j].phase == Registered ==> old(spawns)[j].wiped
    {
      ghost var next := Do(Abs(), Action.Register(i));
      StepKeeps(Abs(), Action.Register(i));
      TakenIff(Abs(), id);
      lastUsed := lastUsed[i := now];
      ok := id !in kernels;
      if ok {
        kernels := kernels[id := i];
      }
      spawns := next.spawns;
    }

    /** The critical section of the release goroutine, once the kernel is done. */
    method Unlist(id: Id, i: nat)
      requires Valid() && Can(Abs(), Action.Unlist(i)) && spawns[i].id == id
      modifies this`kernels, this`spawns
      ensures Valid() && Abs() == Do(old(Abs()), Action.Unlist(i))
    {
      ghost var next := Do(Abs(), Action.Unlist(i));
      StepKeeps(Abs(), Action.Unlist(i));
      if id in kernels && kernels[id] == i {
        kernels := kernels - {id};
      }
      spawns := next.spawns;
    }

    /** The receive from `sem`; it never finds the channel empty. */
    method Release(i: nat)
      requires Valid() && Can(Abs(), Action.Release(i))
      modifies this`sem, this`spawns
      ensures Valid() && Abs() == Do(old(Abs()), Action.Release(i))
      ensures old(sem) > 0 && sem == old(sem) - 1
    {
      ghost var next := Do(Abs(), Action.Release(i));
      ReleaseStep(Abs(), i);
      sem := sem - 1;
      spawns := next.spawns;
    }

    method Get(id: Id) returns (r: Found)
      requires Valid()
      ensures match r
              case NotFound => forall i :: 0 <= i < |spawns| && spawns[i].id == id && spawns[i].phase == Registered ==> spawns[i].wiped
              case Found(i) => i < |spawns| && spawns[i].id == id && spawns[i].phase == Registered && !spawns[i].wiped
    {
      if id in kernels {
        r := Found(kernels[id]);
        assert ListedOk(Abs(), kernels[id]);
      } else {
        r := NotFound;
        forall i | 0 <= i < |spawns| && spawns[i].id == id && spawns[i].phase == Registered
          ensures spawns[i].wiped
        {
          assert ListedOk(Abs(), i);
        }
      }
    }

    method Touch(id: Id, now: int)
      requires Valid()
      modifies this`lastUsed
      ensures Valid()
      ensures lastUsed == if id in kernels then old(lastUsed)[kernels[id] := now] else old(lastUsed)
    {
      if id in kernels {
        lastUsed := lastUsed[kernels[id] := now];
      }
    }

    /** `gcOnce` picks exactly the listed kernels idle for `KERNEL_IDLE_EXPIRY` or longer, each once; it
        returns how many. */
    method GcOnce(now: int) returns (stale: seq<nat>)
      requires Valid()
      ensures forall k :: k in stale <==> exists id :: id in kernels && kernels[id] == k && now - lastUsed[k] >= 30 * 60 * 1_000_000_000
      ensures Distinct(stale)
    {
      stale := [];
      var todo := kernels.Keys;
      while todo != {}
        invariant todo <= kernels.Keys
        invariant forall k :: k in stale ==> exists id :: id in kernels && kernels[id] == k && now - lastUsed[k] >= KERNEL_IDLE_EXPIRY
        invariant forall id :: id in kernels && id !in todo && now - lastUsed[kernels[id]] >= KERNEL_IDLE_EXPIRY ==> kernels[id] in stale
        invariant Distinct(stale) && forall i :: 0 <= i < |stale| ==> stale[i] < |spawns| && spawns[stale[i]].id !in todo
      {
        var id :| id in todo;
        todo := todo - {id};
        if now - lastUsed[kernels[id]] >= KERNEL_IDLE_EXPIRY {
          stale := stale + [kernels[id]];
        }
      }
    }

    /** The critical section of `Close`: every listed kernel is returned to be shut down. */
    method CloseAll() returns (toKill: seq<nat>)
      requires Valid()
      modifies this`kernels, this`spawns
      ensures Valid() && Abs() == Do(old(Abs()), Action.Close)
      ensures (forall k :: k in toKill <==> k in old(kernels).Values) && Distinct(toKill)
    {
      ghost var next := Do(Abs(), Action.Close);
      CloseStep(Abs());
      toKill := [];
      var todo := kernels.Keys;
      while todo != {}
        invariant todo <= kernels.Keys
        invariant forall k :: k in toKill ==> k in kernels.Values
        invariant forall id :: id in kernels && id !in todo ==> kernels[id] in toKill
        invariant Distinct(toKill) && forall i :: 0 <= i < |toKill| ==> toKill[i] < |spawns| && spawns[toKill[i]].id !in todo
      {
        var id :| id in todo;
        todo := todo - {id};
        toKill := toKill + [kernels[id]];
      }
      kernels := map[];
      spawns := next.spawns;
    }
  }
}
