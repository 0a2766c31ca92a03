/** The unlock page's fixed-bucket limiter on the bridge: `rateLimiter.Allow`. Times are Unix seconds. */
module MinuteBuckets {

  type History = map<string, seq<nat>>

  function At(history: History, key: string): seq<nat> {
    if key in history then history[key] else []
  }

  // ---- the limiter that forgets nothing -------------------------------------------------

  function InMinute(ts: seq<nat>, minute: nat): nat {
    if ts == [] then 0 else InMinute(ts[..|ts| - 1], minute) + if ts[|ts| - 1] / 60 == minute then 1 else 0
  }

  predicate Admits(history: History, max: int, key: string, unix: nat) {
    InMinute(At(history, key), unix / 60) < max
  }

  function Accept(history: History, max: int, key: string, unix: nat): History {
    if Admits(history, max, key, unix) then history[key := At(history, key) + [unix]] else history
  }

  datatype Attempt = Attempt(key: string, unix: nat)

  function AfterAttempts(attempts: seq<Attempt>, max: int): History {
    if attempts == [] then map[]
    else
      var last := attempts[|attempts| - 1];
      Accept(AfterAttempts(attempts[..|attempts| - 1], max), max, last.key, last.unix)
  }

  lemma InMinuteAppend(ts: seq<nat>, unix: nat, minute: nat)
    ensures InMinute(ts + [unix], minute) == InMinute(ts, minute) + if unix / 60 == minute then 1 else 0
  {
    assert (ts + [unix])[..|ts|] == ts;
  }

  /** Over every run, a key gets at most `max` calls allowed in any minute of the clock. */
  lemma {:induction false} AtMostMaxPerMinute(attempts: seq<Attempt>, max: int, key: string, minute: nat)
    requires max >= 0
    ensures InMinute(At(AfterAttempts(attempts, max), key), minute) <= max
  {
    if attempts != [] {
      var before, last := attempts[..|attempts| - 1], attempts[|attempts| - 1];
      AtMostMaxPerMinute(before, max, key, minute);
      InMinuteAppend(At(AfterAttempts(before, max), key), last.unix, minute);
    }
  }

  function InWindow(ts: seq<nat>, start: nat): nat {
    if ts == [] then 0 else InWindow(ts[..|ts| - 1], start) + if start <= ts[|ts| - 1] < start + 60 then 1 else 0
  }

  /** A window of 60 seconds meets two minutes of the clock at most. */
  lemma {:induction false} WindowInTwoMinutes(ts: seq<nat>, start: nat)
    ensures InWindow(ts, start) <= InMinute(ts, start / 60) + InMinute(ts, start / 60 + 1)
  {
    if ts != [] {
      WindowInTwoMinutes(ts[..|ts| - 1], start);
    }
  }

  /** Over every run, a key gets at most `2 * max` calls allowed in any 60 seconds. */
  lemma AtMostTwiceMaxPerWindow(attempts: seq<Attempt>, max: int, key: string, start: nat)
    requires max >= 0
    ensures InWindow(At(AfterAttempts(attempts, max), key), start) <= 2 * max
  {
    var ts := At(AfterAttempts(attempts, max), key);
    WindowInTwoMinutes(ts, start);
    AtMostMaxPerMinute(attempts, max, key, start / 60);
    AtMostMaxPerMinute(attempts, max, key, start / 60 + 1);
  }

  /** `n` attempts of a key at one instant, and the times they leave when all are allowed. */
  function Burst(key: string, unix: nat, n: nat): seq<Attempt> {
    if n == 0 then [] else Burst(key, unix, n - 1) + [Attempt(key, unix)]
  }

  function Times(ts: seq<nat>, unix: nat, n: nat): seq<nat> {
    if n == 0 then ts else Times(ts, unix, n - 1) + [unix]
  }

  lemma {:induction false} TimesCounted(ts: seq<nat>, unix: nat, n: nat, minute: nat, start: nat)
    ensures InMinute(Times(ts, unix, n), minute) == InMinute(ts, minute) + if unix / 60 == minute then n else 0
    ensures InWindow(Times(ts, unix, n), start) == InWindow(ts, start) + if start <= unix < start + 60 then n else 0
  {
    if n > 0 {
      var before := Times(ts, unix, n - 1);
      TimesCounted(ts, unix, n - 1, minute, start);
      assert (before + [unix])[..|before|] == before;
    }
  }

  lemma OneMoreAttempt(attempts: seq<Attempt>, max: int, key: string, unix: nat)
    ensures AfterAttempts(attempts + [Attempt(key, unix)], max) == Accept(AfterAttempts(attempts, max), max, key, unix)
  {
    var longer := attempts + [Attempt(key, unix)];
    assert longer[..|longer| - 1] == attempts;
  }

  /** A burst within what is left of the minute is allowed in full. */
  lemma {:induction false} BurstAllowed(attempts: seq<Attempt>, max: int, key: string, unix: nat, n: nat)
    requires InMinute(At(AfterAttempts(attempts, max), key), unix / 60) + n <= max
    ensures At(AfterAttempts(attempts + Burst(key, unix, n), max), key) == Times(At(AfterAttempts(attempts, max), key), unix, n)
  {
    hide AfterAttempts, InMinute;
    if n == 0 {
      assert attempts + [] == attempts;
    } else {
      var sofar := attempts + Burst(key, unix, n - 1);
      BurstAllowed(attempts, max, key, unix, n - 1);
      TimesCounted(At(AfterAttempts(attempts, max), key), unix, n - 1, unix / 60, 0);
      OneMoreAttempt(sofar, max, key, unix);
      assert attempts + Burst(key, unix, n) == sofar + [Attempt(key, unix)];
    }
  }

  lemma MinuteEnds(minute: nat)
    ensures (60 * minute + 59) / 60 == minute && (60 * minute + 60) / 60 == minute + 1
  {}

  /** Two bursts, the second of them in the next minute, within one window. */
  lemma TwoBursts(max: nat, key: string, end: nat)
    requires (end + 1) / 60 == end / 60 + 1
    ensures InWindow(At(AfterAttempts(Burst(key, end, max) + Burst(key, end + 1, max), max), key), end) == 2 * max
  {
    hide AfterAttempts, InMinute, InWindow, At, Burst, Times;
    NothingYet(max, key, end);
    FirstBurst(Burst(key, end, max));
    BurstAllowed([], max, key, end, max);
    TimesCounted([], end, max, end / 60 + 1, end);
    BurstAllowed(Burst(key, end, max), max, key, end + 1, max);
    TimesCounted(Times([], end, max), end + 1, max, 0, end);
  }

  lemma FirstBurst(burst: seq<Attempt>)
    ensures [] + burst == burst
  {}

  lemma NothingYet(max: int, key: string, start: nat)
    ensures At(AfterAttempts([], max), key) == [] && InWindow([], start) == 0 && forall minute :: InMinute([], minute) == 0
  {}

  /** The bound is met, for every `max`, every key and every minute: `max` calls in its last second and `max`
      in the first second of the next are all allowed. */
  lemma TwiceMaxIsReached(max: nat, key: string, minute: nat)
    ensures var end := 60 * minute + 59;
            InWindow(At(AfterAttempts(Burst(key, end, max) + Burst(key, end + 1, max), max), key), end) == 2 * max
  {
    hide AfterAttempts, InWindow, At, Burst;
    MinuteEnds(minute);
    TwoBursts(max, key, 60 * minute + 59);
  }

  // ---- the limiter with one bucket per key -------------------------------------------------

  const RL_MAX_KEYS := 4096

  datatype Bucket = Bucket(count: nat, bucketAt: nat)

  type Buckets = map<string, Bucket>

  /** What a Go map read gives. */
  function Read(buckets: Buckets, key: string): Bucket {
    if key in buckets then buckets[key] else Bucket(0, 0)
  }

  /** The bucket knows the count of every minute from `now` on. */
  ghost predicate Counts(b: Bucket, ts: seq<nat>, now: nat) {
    && (b.bucketAt > now ==> b.count == 0)
    && forall minute: nat :: now <= minute ==> InMinute(ts, minute) == if b.bucketAt == minute then b.count else 0
  }

  ghost predicate AllCount(buckets: Buckets, history: History, now: nat) {
    forall key :: Counts(Read(buckets, key), At(history, key), now)
  }

  lemma TableTick(buckets: Buckets, history: History, now: nat, later: nat)
    requires AllCount(buckets, history, now) && now <= later
    ensures AllCount(buckets, history, later)
  {
    forall key
      ensures Counts(Read(buckets, key), At(history, key), later)
    {
      assert Counts(Read(buckets, key), At(history, key), now);
    }
  }

  lemma TableSet(buckets: Buckets, history: History, history': History, now: nat, key: string, b: Bucket)
    requires AllCount(buckets, history, now) && Counts(b, At(history', key), now)
    requires forall other :: other != key ==> At(history', other) == At(history, other)
    ensures AllCount(buckets[key := b], history', now)
  {
    hide Counts;
    forall other
      ensures Counts(Read(buckets[key := b], other), At(history', other), now)
    {
      assert Counts(Read(buckets, other), At(history, other), now);
    }
  }

  /** A bucket of another minute counts nothing from now on, so it can go. */
  lemma TableDrop(buckets: Buckets, history: History, now: nat, key: string)
    requires AllCount(buckets, history, now) && key in buckets && buckets[key].bucketAt != now
    ensures AllCount(buckets - {key}, history, now)
  {
    assert Counts(Read(buckets, key), At(history, key), now);
    assert Counts(Bucket(0, 0), At(history, key), now);
    hide Counts;
    forall other
      ensures Counts(Read(buckets - {key}, other), At(history, other), now)
    {
      assert Counts(Read(buckets, other), At(history, other), now);
    }
  }

  /** The bucket of this minute, started afresh if it was an older one. */
  function Current(buckets: Buckets, key: string, now: nat): Bucket {
    if Read(buckets, key).bucketAt == now then Read(buckets, key) else Bucket(0, now)
  }

  lemma TableCall(buckets: Buckets, history: History, key: string, unix: nat)
    requires AllCount(buckets, history, unix / 60)
    ensures var now, b := unix / 60, Current(buckets, key, unix / 60);
            && b.count == InMinute(At(history, key), now)
            && AllCount(buckets[key := b], history, now)
            && AllCount(buckets[key := b.(count := b.count + 1)], history[key := At(history, key) + [unix]], now)
  {
    var now, b, ts := unix / 60, Current(buckets, key, unix / 60), At(history, key);
    assert Counts(Read(buckets, key), ts, now);
    TableSet(buckets, history, history, now, key, b);
    forall minute: nat | now <= minute
      ensures InMinute(ts + [unix], minute) == if minute == now then b.count + 1 else 0
    {
      InMinuteAppend(ts, unix, minute);
    }
    TableSet(buckets, history, history[key := ts + [unix]], now, key, b.(count := b.count + 1));
  }

  class RateLimiter {
    var buckets: Buckets
    const max: int
    const maxKeys: int
    ghost var history: History
    ghost var clock: nat

    ghost predicate Valid()
      reads this
    {
      AllCount(buckets, history, clock / 60)
    }

    constructor (maxPerMin: int)
      ensures Valid() && max == maxPerMin && maxKeys == RL_MAX_KEYS && history == map[] && clock == 0
    {
      max, maxKeys := maxPerMin, RL_MAX_KEYS;
      buckets, history, clock := map[], map[], 0;
    }

    /** Same decision as the limiter that forgets nothing; after an allowed call the map holds at most
        `maxKeys` entries or only entries of the current minute. */
    method Allow(key: string, unix: nat) returns (ok: bool)
      requires Valid() && clock <= unix
      modifies this
      ensures Valid() && clock == unix
      ensures ok == Admits(old(history), max, key, unix)
      ensures history == Accept(old(history), max, key, unix)
      ensures ok ==> |buckets| <= maxKeys || forall k :: k in buckets ==> buckets[k].bucketAt == unix / 60
      ensures key in buckets && buckets[key].bucketAt == unix / 60
    {
      hide AllCount, Counts, InMinute;
      TableTick(buckets, history, clock / 60, unix / 60);
      TableCall(buckets, history, key, unix);
      clock := unix;
      var now := unix / 60;
      var b := if key in buckets then buckets[key] else Bucket(0, 0);
      if b.bucketAt != now {
        b := Bucket(0, now);
      }
      if b.count >= max {
        buckets := buckets[key := b];
        return false;
      }
      b := b.(count := b.count + 1);
      buckets := buckets[key := b];
      history := history[key := At(history, key) + [unix]];
      if |buckets| > maxKeys {
        Evict(now);
      }
      ok := true;
    }

    /** Drops exactly the entries whose minute has rolled over. */
    method Evict(now: nat)
      requires Valid() && now == clock / 60
      modifies this`buckets
      ensures Valid()
      ensures buckets == map k | k in old(buckets) && old(buckets)[k].bucketAt == now :: old(buckets)[k]
    {
      hide AllCount;
      ghost var was := buckets;
      var todo := buckets.Keys;
      while todo != {}
        invariant todo <= buckets.Keys
        invariant Valid()
        invariant buckets == map k | k in was && (k in todo || was[k].bucketAt == now) :: was[k]
      {
        var k :| k in todo;
        todo := todo - {k};
        if buckets[k].bucketAt != now {
          TableDrop(buckets, history, now, k);
          buckets := buckets - {k};
        }
      }
    }
  }
}
