/** The crash history behind auto-restart: `recordCrash` and `isCircuitOpen`. */
module CircuitBreaker {
  import opened Timestamps

  const MAX_CRASHES_IN_WINDOW := 5
  const CRASH_WINDOW: int := 60 * SECOND

  /** The breaker's answer when every exit ever recorded is counted. */
  predicate IsOpen(exits: seq<int>, now: int) {
    |After(exits, now - CRASH_WINDOW)| >= MAX_CRASHES_IN_WINDOW
  }

  /** Fewer than five exits, or the fifth last of them a minute ago or longer: exactly then the breaker is
      closed. */
  lemma ClosedIff(exits: seq<int>, now: int)
    requires Sorted(exits)
    ensures !IsOpen(exits, now) <==> |exits| < 5 || exits[|exits| - 5] <= now - 60 * SECOND
  {
    LateIff(exits, now - CRASH_WINDOW, 5);
  }

  /** What `recordCrash` leaves behind: append, then drop what is not later than the cutoff. */
  function Recorded(ts: seq<int>, stamp: int, later: int): seq<int> {
    After(ts + [stamp], later - CRASH_WINDOW)
  }

  /** `kept` answers like `exits` at every instant from `clock` on. */
  ghost predicate Agrees(kept: seq<int>, exits: seq<int>, clock: int) {
    forall c :: clock - CRASH_WINDOW <= c ==> After(kept, c) == After(exits, c)
  }

  lemma AgreesOpen(kept: seq<int>, exits: seq<int>, clock: int, now: int)
    requires Agrees(kept, exits, clock) && clock <= now
    ensures IsOpen(kept, now) == IsOpen(exits, now)
  {
    assert After(kept, now - CRASH_WINDOW) == After(exits, now - CRASH_WINDOW);
  }

  lemma RecordedAgrees(kept: seq<int>, exits: seq<int>, clock: int, stamp: int, later: int)
    requires Agrees(kept, exits, clock) && clock <= stamp <= later
    ensures Agrees(Recorded(kept, stamp, later), exits + [stamp], later)
  {
    forall c | later - CRASH_WINDOW <= c
      ensures After(Recorded(kept, stamp, later), c) == After(exits + [stamp], c)
    {
      AfterTwice(kept + [stamp], later - CRASH_WINDOW, c);
      AfterAppend(kept, stamp, c);
      AfterAppend(exits, stamp, c);
    }
  }

  ghost predicate TableAgrees(kept: map<string, seq<int>>, exits: map<string, seq<int>>, clock: int) {
    forall name :: Agrees(At(kept, name), At(exits, name), clock)
  }

  lemma RecordedTable(kept: map<string, seq<int>>, exits: map<string, seq<int>>, name: string, clock: int, stamp: int, later: int)
    requires TableAgrees(kept, exits, clock) && clock <= stamp <= later
    ensures TableAgrees(kept[name := Recorded(At(kept, name), stamp, later)], exits[name := At(exits, name) + [stamp]], later)
  {
    var kept', exits' := kept[name := Recorded(At(kept, name), stamp, later)], exits[name := At(exits, name) + [stamp]];
    forall other
      ensures Agrees(At(kept', other), At(exits', other), later)
    {
      assert Agrees(At(kept, other), At(exits, other), clock);
      if other == name {
        RecordedAgrees(At(kept, name), At(exits, name), clock, stamp, later);
      }
    }
  }

  /** `ProjectManager.crashStates`, with the full exit history beside it as a ghost. */
  class CrashTable {
    var crashStates: map<string, seq<int>>
    ghost var exits: map<string, seq<int>>
    ghost var clock: int

    ghost predicate Valid()
      reads this
    {
      TableAgrees(crashStates, exits, clock)
    }

    constructor (start: int)
      ensures Valid() && exits == map[] && clock == start
    {
      crashStates, exits, clock := map[], map[], start;
    }

    /** The answer is the one the full history gives, although most of it was pruned. */
    method IsCircuitOpen(name: string, now: int) returns (open: bool)
      requires Valid() && clock <= now
      ensures open == IsOpen(At(exits, name), now)
    {
      assert Agrees(At(crashStates, name), At(exits, name), clock);
      AgreesOpen(At(crashStates, name), At(exits, name), clock, now);
      if name !in crashStates {
        return false;
      }
      var ts := crashStates[name];
      var cutoff := now - CRASH_WINDOW;
      var count := 0;
      for i := 0 to |ts|
        invariant count == |After(ts[..i], cutoff)|
      {
        AfterAppend(ts[..i], ts[i], cutoff);
        assert ts[..i + 1] == ts[..i] + [ts[i]];
        if cutoff < ts[i] {
          count := count + 1;
        }
      }
      assert ts[..|ts|] == ts;
      open := count >= MAX_CRASHES_IN_WINDOW;
    }

    /** `stamp` is the appended reading of the clock, `later` the one the cutoff is taken from. */
    method RecordCrash(name: string, stamp: int, later: int)
      requires Valid() && clock <= stamp <= later
      modifies this
      ensures Valid() && clock == later
      ensures exits == old(exits)[name := At(old(exits), name) + [stamp]]
      ensures crashStates == old(crashStates)[name := Recorded(At(old(crashStates), name), stamp, later)]
    {
      RecordedTable(crashStates, exits, name, clock, stamp, later);
      var ts := (if name in crashStates then crashStates[name] else []) + [stamp];
      var filtered := Prune(ts, later - CRASH_WINDOW);
      crashStates := crashStates[name := filtered];
      exits := exits[name := At(exits, name) + [stamp]];
      clock := later;
    }
  }
}
