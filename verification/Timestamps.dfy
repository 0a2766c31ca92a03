/** Timestamp lists as the circuit breaker and the sliding-window limiter keep them.
    Times are nanoseconds, as in Go's `time.Duration`. */
module Timestamps {

  const SECOND: int := 1_000_000_000
  const MINUTE: int := 60 * SECOND

  /** The entries of `ts` strictly later than `cutoff`, in order. */
  function After(ts: seq<int>, cutoff: int): (r: seq<int>)
    ensures |r| <= |ts|
    ensures forall t :: t in r <==> t in ts && cutoff < t
  {
    if ts == [] then []
    else
      var last := ts[|ts| - 1];
      var front := After(ts[..|ts| - 1], cutoff);
      assert ts == ts[..|ts| - 1] + [last];
      if cutoff < last then front + [last] else front
  }

  ghost predicate Sorted(ts: seq<int>) {
    forall i, j :: 0 <= i < j < |ts| ==> ts[i] <= ts[j]
  }

  /** The entry kept under `key`, or the empty list, as a Go map read gives it. */
  function At<K>(m: map<K, seq<int>>, key: K): seq<int> {
    if key in m then m[key] else []
  }

  lemma AfterAppend(ts: seq<int>, t: int, cutoff: int)
    ensures After(ts + [t], cutoff) == After(ts, cutoff) + (if cutoff < t then [t] else [])
  {
    assert (ts + [t])[..|ts|] == ts;
  }

  /** Pruning at an earlier cutoff is invisible at any later cutoff. */
  lemma {:induction false} AfterTwice(ts: seq<int>, early: int, late: int)
    requires early <= late
    ensures After(After(ts, early), late) == After(ts, late)
  {
    if ts != [] {
      var front, last := ts[..|ts| - 1], ts[|ts| - 1];
      AfterTwice(front, early, late);
      if early < last {
        AfterAppend(After(front, early), last, late);
      }
    }
  }

  lemma {:induction false} AfterNone(ts: seq<int>, cutoff: int)
    requires forall i :: 0 <= i < |ts| ==> ts[i] <= cutoff
    ensures After(ts, cutoff) == []
  {
    if ts != [] {
      AfterNone(ts[..|ts| - 1], cutoff);
    }
  }

  /** The pruning loop both `recordCrash` and `rateLimiter.allow` run over a list. */
  method Prune(ts: seq<int>, cutoff: int) returns (kept: seq<int>)
    ensures kept == After(ts, cutoff)
  {
    kept := [];
    for i := 0 to |ts|
      invariant kept == After(ts[..i], cutoff)
    {
      AfterAppend(ts[..i], ts[i], cutoff);
      assert ts[..i + 1] == ts[..i] + [ts[i]];
      if cutoff < ts[i] {
        kept := kept + [ts[i]];
      }
    }
    assert ts[..|ts|] == ts;
  }

  /** A run of `k` late entries at increasing positions is counted in full. */
  lemma {:induction false} AfterCounts(ts: seq<int>, idx: seq<nat>, cutoff: int)
    requires forall i :: 0 <= i < |idx| ==> idx[i] < |ts| && cutoff < ts[idx[i]]
    requires forall i, j :: 0 <= i < j < |idx| ==> idx[i] < idx[j]
    ensures |idx| <= |After(ts, cutoff)|
  {
    if idx != [] {
      var n := |idx| - 1;
      assert idx[n] < |ts|;
      var front := ts[..|ts| - 1];
      assert ts == front + [ts[|ts| - 1]];
      if idx[n] == |ts| - 1 {
        AfterCounts(front, idx[..n], cutoff);
      } else {
        AfterCounts(front, idx, cutoff);
      }
      assert After(ts, cutoff) == After(front, cutoff) + if cutoff < ts[|ts| - 1] then [ts[|ts| - 1]] else [];
    }
  }

  /** A sorted list has `k` late entries exactly if the `k`-th from its end is late. */
  lemma LateIff(ts: seq<int>, cutoff: int, k: nat)
    requires Sorted(ts) && k > 0
    ensures |After(ts, cutoff)| >= k <==> |ts| >= k && cutoff < ts[|ts| - k]
  {
    var late := After(ts, cutoff);
    AfterIsSuffix(ts, cutoff);
    if |late| >= k {
      assert late[|late| - k] == ts[|ts| - k] && late[|late| - k] in late;
    } else if |ts| >= k && cutoff < ts[|ts| - k] {
      AfterCounts(ts, seq(k, i requires 0 <= i < k => |ts| - k + i), cutoff);
    }
  }

  /** In a sorted list the late entries are a suffix. */
  lemma {:induction false} AfterIsSuffix(ts: seq<int>, cutoff: int)
    requires Sorted(ts)
    ensures After(ts, cutoff) == ts[|ts| - |After(ts, cutoff)|..]
  {
    if ts != [] {
      var front, last := ts[..|ts| - 1], ts[|ts| - 1];
      if cutoff < last {
        AfterIsSuffix(front, cutoff);
        SuffixOn(ts, After(front, cutoff));
      } else {
        AfterNone(ts, cutoff);
      }
    }
  }

  lemma SuffixOn(ts: seq<int>, late: seq<int>)
    requires ts != [] && |late| < |ts| && late == ts[..|ts| - 1][|ts| - 1 - |late|..]
    ensures late + [ts[|ts| - 1]] == ts[|ts| - 1 - |late|..]
  {}
}
