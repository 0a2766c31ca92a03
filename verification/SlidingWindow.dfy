/** The per-source throttle in front of the credential endpoints: `rateLimiter.allow`. */
module SlidingWindow {
  import opened Timestamps

  // ---- the limiter that forgets nothing ---------------------------------------------

  type History = map<string, seq<int>>

  /** Calls are decided by all accepted timestamps of the key, kept forever. */
  predicate Admits(history: History, max: int, window: int, key: string, now: int) {
    max <= 0 || |After(At(history, key), now - window)| < max
  }

  function Accept(history: History, max: int, window: int, key: string, now: int): History {
    if max > 0 && Admits(history, max, window, key, now) then history[key := At(history, key) + [now]] else history
  }

  datatype Attempt = Attempt(key: string, now: int)

  function AfterAttempts(attempts: seq<Attempt>, max: int, window: int): History {
    if attempts == [] then map[]
    else
      var last := attempts[|attempts| - 1];
      Accept(AfterAttempts(attempts[..|attempts| - 1], max, window), max, window, last.key, last.now)
  }

  ghost predicate Ordered(attempts: seq<Attempt>) {
    forall i, j :: 0 <= i < j < |attempts| ==> attempts[i].now <= attempts[j].now
  }

  /** Any `max + 1` accepted calls span at least the window. */
  ghost predicate Spaced(ts: seq<int>, max: int, window: int) {
    forall i, j :: 0 <= i <= j < |ts| && j - i >= max ==> ts[j] - ts[i] >= window
  }

  /** In a sorted list what is not among the late entries is early. */
  lemma EarlyPart(ts: seq<int>, cutoff: int, i: nat)
    requires Sorted(ts) && i < |ts| - |After(ts, cutoff)|
    ensures ts[i] <= cutoff
  {
    LateIff(ts, cutoff, |ts| - i);
  }

  ghost predicate UpTo(ts: seq<int>, now: int) {
    forall t :: t in ts ==> t <= now
  }

  lemma SortedAppend(ts: seq<int>, now: int)
    requires Sorted(ts) && UpTo(ts, now)
    ensures Sorted(ts + [now]) && UpTo(ts + [now], now)
  {
    forall i | 0 <= i < |ts|
      ensures ts[i] <= now
    {
      assert ts[i] in ts;
    }
  }

  lemma AcceptSpaced(ts: seq<int>, max: int, window: int, now: int)
    requires max > 0 && Sorted(ts) && Spaced(ts, max, window) && UpTo(ts, now)
    requires |After(ts, now - window)| < max
    ensures Sorted(ts + [now]) && Spaced(ts + [now], max, window) && UpTo(ts + [now], now)
  {
    SortedAppend(ts, now);
    var longer := ts + [now];
    forall i, j | 0 <= i <= j < |longer| && j - i >= max
      ensures longer[j] - longer[i] >= window
    {
      if j == |ts| {
        EarlyPart(ts, now - window, i);
      }
    }
  }

  lemma {:induction false} AttemptsSpaced(attempts: seq<Attempt>, max: int, window: int, key: string, now: int)
    requires max > 0 && Ordered(attempts) && (attempts != [] ==> attempts[|attempts| - 1].now <= now)
    ensures var ts := At(AfterAttempts(attempts, max, window), key); Sorted(ts) && Spaced(ts, max, window) && UpTo(ts, now)
  {
    hide Spaced, Sorted;
    if attempts == [] {
      EmptySpaced(max, window);
    } else {
      var before, last := attempts[..|attempts| - 1], attempts[|attempts| - 1];
      AttemptsSpaced(before, max, window, key, last.now);
      var history := AfterAttempts(before, max, window);
      if last.key == key && Admits(history, max, window, key, last.now) {
        AcceptSpaced(At(history, key), max, window, last.now);
      }
    }
  }

  /** Exactly when a call is allowed, after any ordered calls: the limiter is off, or fewer than `max` calls of
      the key were accepted so far, or the one `max` accepted calls ago is the window's length old. */
  lemma AllowedIff(attempts: seq<Attempt>, max: int, window: int, key: string, now: int)
    requires Ordered(attempts) && (attempts != [] ==> attempts[|attempts| - 1].now <= now)
    ensures var ts := At(AfterAttempts(attempts, max, window), key);
            Admits(AfterAttempts(attempts, max, window), max, window, key, now)
            <==> max <= 0 || |ts| < max || ts[|ts| - max] <= now - window
  {
    hide AfterAttempts, Spaced, UpTo, After, Sorted;
    if max > 0 {
      AttemptsSpaced(attempts, max, window, key, now);
      LateIff(At(AfterAttempts(attempts, max, window), key), now - window, max);
    }
  }

  /** `n` calls of a key at one instant. */
  function Burst(key: string, now: int, n: nat): seq<Attempt> {
    if n == 0 then [] else Burst(key, now, n - 1) + [Attempt(key, now)]
  }

  lemma {:induction false} BurstAlike(key: string, now: int, n: nat)
    ensures forall a :: a in Burst(key, now, n) ==> a == Attempt(key, now)
  {
    if n > 0 {
      BurstAlike(key, now, n - 1);
    }
  }

  lemma BurstOrdered(key: string, now: int, n: nat)
    ensures var burst := Burst(key, now, n); Ordered(burst) && (burst != [] ==> burst[|burst| - 1].now <= now)
  {
    var burst := Burst(key, now, n);
    BurstAlike(key, now, n);
    assert forall i :: 0 <= i < |burst| ==> burst[i] in burst;
  }

  lemma OneMoreAttempt(attempts: seq<Attempt>, max: int, window: int, key: string, now: int)
    ensures AfterAttempts(attempts + [Attempt(key, now)], max, window) == Accept(AfterAttempts(attempts, max, window), max, window, key, now)
  {
    var longer := attempts + [Attempt(key, now)];
    assert longer[..|longer| - 1] == attempts;
  }

  lemma NextAllowed(attempts: seq<Attempt>, max: int, window: int, key: string, now: int)
    requires Ordered(attempts) && (attempts != [] ==> attempts[|attempts| - 1].now <= now)
    requires |At(AfterAttempts(attempts, max, window), key)| < max
    ensures |At(AfterAttempts(attempts + [Attempt(key, now)], max, window), key)| == |At(AfterAttempts(attempts, max, window), key)| + 1
  {
    hide AfterAttempts, Admits, Ordered;
    AllowedIff(attempts, max, window, key, now);
    OneMoreAttempt(attempts, max, window, key, now);
  }

  /** The bound of one window is met: the first `max` calls of a key are all accepted. */
  lemma {:induction false} FirstCallsAllowed(max: nat, window: int, key: string, now: int, n: nat)
    requires n <= max
    ensures |At(AfterAttempts(Burst(key, now, n), max, window), key)| == n
  {
    hide Accept, Admits, Ordered;
    if n > 0 {
      FirstCallsAllowed(max, window, key, now, n - 1);
      BurstOrdered(key, now, n - 1);
      NextAllowed(Burst(key, now, n - 1), max, window, key, now);
    }
  }

  lemma EmptySpaced(max: int, window: int)
    ensures Sorted([]) && Spaced([], max, window)
  {}

  lemma {:induction false} IndexGap(idx: seq<nat>, k: nat)
    requires k < |idx| && forall i, j :: 0 <= i < j < |idx| ==> idx[i] < idx[j]
    ensures idx[k] - idx[0] >= k
  {
    if k > 0 {
      IndexGap(idx, k - 1);
    }
  }

  lemma WindowHoldsMax(ts: seq<int>, max: int, window: int, start: int, inside: seq<nat>)
    requires max > 0 && Spaced(ts, max, window)
    requires forall i, j :: 0 <= i < j < |inside| ==> inside[i] < inside[j]
    requires forall i :: 0 <= i < |inside| ==> inside[i] < |ts| && start <= ts[inside[i]] < start + window
    ensures |inside| <= max
  {
    if |inside| > max {
      IndexGap(inside, max);
    }
  }

  /** For every run of calls and every key, no window of length `window` holds more than `max`
      accepted calls, wherever it starts. */
  lemma AtMostMaxPerWindow(attempts: seq<Attempt>, max: int, window: int, key: string, start: int, inside: seq<nat>)
    requires max > 0 && Ordered(attempts)
    requires forall i, j :: 0 <= i < j < |inside| ==> inside[i] < inside[j]
    requires var ts := At(AfterAttempts(attempts, max, window), key);
             forall i :: 0 <= i < |inside| ==> inside[i] < |ts| && start <= ts[inside[i]] < start + window
    ensures |inside| <= max
  {
    AttemptsSpaced(attempts, max, window, key, if attempts == [] then 0 else attempts[|attempts| - 1].now);
    WindowHoldsMax(At(AfterAttempts(attempts, max, window), key), max, window, start, inside);
  }

  // ---- the limiter that prunes and collects -------------------------------------------

  const GC_KEYS: nat := 1024

  /** `kept` answers like `full` from `clock` on. */
  ghost predicate Agrees(kept: seq<int>, full: seq<int>, window: int, clock: int) {
    && Sorted(kept)
    && forall c :: clock - window <= c ==> After(kept, c) == After(full, c)
  }

  ghost predicate TableAgrees(hits: map<string, seq<int>>, history: History, window: int, clock: int) {
    forall key :: Agrees(At(hits, key), At(history, key), window, clock)
  }

  ghost predicate HitsBounded(hits: map<string, seq<int>>, clock: int) {
    forall key :: UpTo(At(hits, key), clock)
  }

  lemma {:induction false} AfterSorted(ts: seq<int>, cutoff: int)
    requires Sorted(ts)
    ensures Sorted(After(ts, cutoff))
  {
    AfterIsSuffix(ts, cutoff);
  }

  lemma Pruned(kept: seq<int>, full: seq<int>, window: int, clock: int, now: int)
    requires Agrees(kept, full, window, clock) && clock <= now
    ensures Agrees(After(kept, now - window), full, window, now)
    ensures After(kept, now - window) == After(full, now - window)
  {
    hide Sorted;
    AfterSorted(kept, now - window);
    assert now - window >= clock - window;
    forall c | now - window <= c
      ensures After(After(kept, now - window), c) == After(full, c)
    {
      AfterTwice(kept, now - window, c);
    }
  }

  lemma Appended(kept: seq<int>, full: seq<int>, window: int, now: int)
    requires Agrees(kept, full, window, now) && UpTo(kept, now)
    ensures Agrees(kept + [now], full + [now], window, now) && UpTo(kept + [now], now)
  {
    SortedAppend(kept, now);
    forall c | now - window <= c
      ensures After(kept + [now], c) == After(full + [now], c)
    {
      AfterAppend(kept, now, c);
      AfterAppend(full, now, c);
    }
  }

  /** A list whose newest entry is past the window answers like no list at all. */
  lemma Stale(kept: seq<int>, full: seq<int>, window: int, now: int)
    requires Agrees(kept, full, window, now) && (kept == [] || kept[|kept| - 1] < now - window)
    ensures Agrees([], full, window, now)
  {
    forall c | now - window <= c
      ensures After([], c) == After(full, c)
    {
      assert forall i :: 0 <= i < |kept| ==> kept[i] <= kept[|kept| - 1];
      AfterNone(kept, c);
    }
  }

  lemma TableTick(hits: map<string, seq<int>>, history: History, window: int, clock: int, now: int)
    requires TableAgrees(hits, history, window, clock) && HitsBounded(hits, clock) && clock <= now
    ensures TableAgrees(hits, history, window, now) && HitsBounded(hits, now)
  {
    forall key
      ensures Agrees(At(hits, key), At(history, key), window, now)
    {
      assert Agrees(At(hits, key), At(history, key), window, clock);
    }
  }

  /** Only the entry of `key` changes, in both tables. */
  lemma TableSet(hits: map<string, seq<int>>, history: History, history': History, window: int, clock: int, key: string, kept: seq<int>)
    requires TableAgrees(hits, history, window, clock) && Agrees(kept, At(history', key), window, clock)
    requires HitsBounded(hits, clock) && UpTo(kept, clock)
    requires forall other :: other != key ==> At(history', other) == At(history, other)
    ensures TableAgrees(hits[key := kept], history', window, clock) && HitsBounded(hits[key := kept], clock)
  {
    hide Agrees, UpTo;
    forall other
      ensures Agrees(At(hits[key := kept], other), At(history', other), window, clock) && UpTo(At(hits[key := kept], other), clock)
    {
      assert Agrees(At(hits, other), At(history, other), window, clock) && UpTo(At(hits, other), clock);
    }
  }

  /** What pruning the entry of `key`, and then perhaps appending to it, leaves behind. */
  lemma TableCall(hits: map<string, seq<int>>, history: History, window: int, now: int, key: string)
    requires TableAgrees(hits, history, window, now) && HitsBounded(hits, now)
    ensures var kept, full := After(At(hits, key), now - window), At(history, key);
            && kept == After(full, now - window)
            && TableAgrees(hits[key := kept], history, window, now) && HitsBounded(hits[key := kept], now)
            && TableAgrees(hits[key := kept + [now]], history[key := full + [now]], window, now)
            && HitsBounded(hits[key := kept + [now]], now)
  {
    var times, full := At(hits, key), At(history, key);
    var kept := After(times, now - window);
    assert Agrees(times, full, window, now) && UpTo(times, now);
    hide Agrees, TableAgrees, HitsBounded;
    Pruned(times, full, window, now, now);
    Appended(kept, full, window, now);
    TableSet(hits, history, history, window, now, key, kept);
    TableSet(hits, history, history[key := full + [now]], window, now, key, kept + [now]);
  }

  predicate IsStale(ts: seq<int>, cutoff: int) {
    ts == [] || ts[|ts| - 1] < cutoff
  }

  lemma TableDrop(hits: map<string, seq<int>>, history: History, window: int, clock: int, key: string)
    requires TableAgrees(hits, history, window, clock) && HitsBounded(hits, clock) && key in hits && IsStale(hits[key], clock - window)
    ensures TableAgrees(hits - {key}, history, window, clock) && HitsBounded(hits - {key}, clock)
  {
    assert Agrees(At(hits, key), At(history, key), window, clock);
    Stale(hits[key], At(history, key), window, clock);
    hide Agrees;
    forall other
      ensures Agrees(At(hits - {key}, other), At(history, other), window, clock) && UpTo(At(hits - {key}, other), clock)
    {
      assert Agrees(At(hits, other), At(history, other), window, clock) && UpTo(At(hits, other), clock);
    }
  }

  class RateLimiter {
    var hits: map<string, seq<int>>
    const max: int
    const window: int
    ghost var history: History
    ghost var clock: int

    ghost predicate Valid()
      reads this
    {
      TableAgrees(hits, history, window, clock) && HitsBounded(hits, clock)
    }

    constructor (max: int, window: int, start: int)
      ensures Valid() && this.max == max && this.window == window && history == map[] && clock == start
    {
      this.max, this.window := max, window;
      hits, history, clock := map[], map[], start;
    }

    /** Same decision as the limiter that forgets nothing, on every call. */
    method Allow(key: string, now: int) returns (ok: bool)
      requires Valid() && clock <= now
      modifies this
      ensures Valid() && clock == now
      ensures ok == Admits(old(history), max, window, key, now)
      ensures history == Accept(old(history), max, window, key, now)
    {
      hide TableAgrees, HitsBounded;
      TableTick(hits, history, window, clock, now);
      clock := now;
      if max <= 0 {
        return true;
      }
      var cutoff := now - window;
      var times := if key in hits then hits[key] else [];
      var kept := Prune(times, cutoff);
      TableCall(hits, history, window, now, key);
      if |kept| >= max {
        hits := hits[key := kept];
        return false;
      }
      hits := hits[key := kept + [now]];
      history := history[key := At(history, key) + [now]];
      if |hits| > GC_KEYS {
        Collect(cutoff);
      }
      ok := true;
    }

    /** The opportunistic GC: drops exactly the keys whose newest hit is past the window. */
    method Collect(cutoff: int)
      requires Valid() && cutoff == clock - window
      modifies this`hits
      ensures Valid()
      ensures hits == map k | k in old(hits) && !IsStale(old(hits)[k], cutoff) :: old(hits)[k]
    {
      ghost var was := hits;
      var todo := hits.Keys;
      while todo != {}
        invariant todo <= hits.Keys
        invariant Valid()
        invariant hits == map k | k in was && (k in todo || !IsStale(was[k], cutoff)) :: was[k]
      {
        var k :| k in todo;
        todo := todo - {k};
        if IsStale(hits[k], cutoff) {
          TableDrop(hits, history, window, clock, k);
          hits := hits - {k};
        }
      }
    }
  }
}
