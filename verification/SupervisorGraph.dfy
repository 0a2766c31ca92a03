/** The `depends_on` graph of the project supervisor: which projects can be started at all, and which
    dependencies a start gets to. */
module SupervisorGraph {
  import opened Supervisor

  predicate DependsOn(cfg: Config, n: Name, d: Name) {
    n in cfg.deps && d in cfg.deps[n]
  }

  /** `path` leads from its first project down `depends_on` to its last. */
  predicate DependencyPath(cfg: Config, path: seq<Name>) {
    |path| > 1 ==> DependsOn(cfg, path[0], path[1]) && DependencyPath(cfg, path[1..])
  }

  /** `m` is `n` or one of its transitive dependencies. */
  ghost predicate InCone(cfg: Config, n: Name, m: Name) {
    exists path :: path != [] && path[0] == n && path[|path| - 1] == m && DependencyPath(cfg, path)
  }

  // ---- startable projects ---------------------------------------------------------------

  predicate StartableIn(cfg: Config, n: Name, k: nat)
    decreases k
  {
    k > 0 && n in cfg.deps && forall d :: d in cfg.deps[n] ==> StartableIn(cfg, d, k - 1)
  }

  /** A project with a manifest all of whose dependencies are startable. */
  ghost predicate Startable(cfg: Config, n: Name) {
    exists k: nat :: StartableIn(cfg, n, k)
  }

  ghost function Least(cfg: Config, n: Name, k: nat): (least: nat)
    requires StartableIn(cfg, n, k)
    ensures StartableIn(cfg, n, least) && forall j: nat :: j < least ==> !StartableIn(cfg, n, j)
  {
    if exists j: nat :: j < k && StartableIn(cfg, n, j) then
      var j: nat :| j < k && StartableIn(cfg, n, j);
      Least(cfg, n, j)
    else k
  }

  /** The length of the longest chain of dependencies below a startable project. */
  ghost function Depth(cfg: Config, n: Name): (k: nat)
    requires Startable(cfg, n)
    ensures StartableIn(cfg, n, k) && forall j: nat :: j < k ==> !StartableIn(cfg, n, j)
  {
    var k: nat :| StartableIn(cfg, n, k);
    Least(cfg, n, k)
  }

  lemma {:induction false} DepthDown(cfg: Config, n: Name, d: Name)
    requires Startable(cfg, n) && DependsOn(cfg, n, d)
    ensures Startable(cfg, d) && Depth(cfg, d) < Depth(cfg, n)
  {
    assert StartableIn(cfg, d, Depth(cfg, n) - 1);
  }

  lemma {:induction false} StartableLater(cfg: Config, n: Name, k: nat, later: nat)
    requires StartableIn(cfg, n, k) && k <= later
    ensures StartableIn(cfg, n, later)
    decreases k
  {
    forall d | d in cfg.deps[n]
      ensures StartableIn(cfg, d, later - 1)
    {
      StartableLater(cfg, d, k - 1, later - 1);
    }
  }

  lemma {:induction false} DepthBound(cfg: Config, deps: seq<Name>) returns (bound: nat)
    requires forall d :: d in deps ==> Startable(cfg, d)
    ensures forall d :: d in deps ==> Depth(cfg, d) <= bound
  {
    if deps == [] {
      bound := 0;
    } else {
      bound := DepthBound(cfg, deps[1..]);
      assert deps == [deps[0]] + deps[1..];
      bound := if bound < Depth(cfg, deps[0]) then Depth(cfg, deps[0]) else bound;
    }
  }

  /** The defining equation: a project is startable exactly when it has a manifest and all its dependencies
      are startable. */
  lemma StartableIff(cfg: Config, n: Name)
    ensures Startable(cfg, n) <==> n in cfg.deps && forall d :: d in cfg.deps[n] ==> Startable(cfg, d)
  {
    if Startable(cfg, n) {
      forall d | d in cfg.deps[n]
        ensures Startable(cfg, d)
      {
        DepthDown(cfg, n, d);
      }
    } else if n in cfg.deps && forall d :: d in cfg.deps[n] ==> Startable(cfg, d) {
      var bound := DepthBound(cfg, cfg.deps[n]);
      forall d | d in cfg.deps[n]
        ensures StartableIn(cfg, d, bound)
      {
        StartableLater(cfg, d, Depth(cfg, d), bound);
      }
      assert StartableIn(cfg, n, bound + 1);
    }
  }

  /** Along a path from a startable project everything is startable, and less and less deep. */
  lemma {:induction false} PathDown(cfg: Config, path: seq<Name>)
    requires path != [] && DependencyPath(cfg, path) && Startable(cfg, path[0])
    ensures Startable(cfg, path[|path| - 1])
    ensures if |path| > 1 then Depth(cfg, path[|path| - 1]) < Depth(cfg, path[0]) else path[|path| - 1] == path[0]
    decreases |path|
  {
    if |path| > 1 {
      DepthDown(cfg, path[0], path[1]);
      PathDown(cfg, path[1..]);
    }
  }

  lemma {:induction false} PathDownAt(cfg: Config, path: seq<Name>, i: nat)
    requires path != [] && DependencyPath(cfg, path) && Startable(cfg, path[0]) && 0 < i < |path|
    ensures path[i] != path[0] && Startable(cfg, path[i]) && Depth(cfg, path[i]) < Depth(cfg, path[0])
    decreases i
  {
    DepthDown(cfg, path[0], path[1]);
    if i > 1 {
      PathDownAt(cfg, path[1..], i - 1);
    }
  }

  lemma ConeDown(cfg: Config, n: Name, m: Name)
    requires Startable(cfg, n) && InCone(cfg, n, m)
    ensures Startable(cfg, m) && (m == n || Depth(cfg, m) < Depth(cfg, n))
  {
    var path :| path != [] && path[0] == n && path[|path| - 1] == m && DependencyPath(cfg, path);
    PathDown(cfg, path);
  }

  lemma ConeSelf(cfg: Config, n: Name)
    ensures InCone(cfg, n, n)
  {
    assert DependencyPath(cfg, [n]) && [n][0] == n && [n][|[n]| - 1] == n;
  }

  lemma ConeDep(cfg: Config, n: Name, d: Name, m: Name)
    requires DependsOn(cfg, n, d) && InCone(cfg, d, m)
    ensures InCone(cfg, n, m)
  {
    var path :| path != [] && path[0] == d && path[|path| - 1] == m && DependencyPath(cfg, path);
    var longer := [n] + path;
    assert longer[1..] == path && longer[0] == n && longer[|longer| - 1] == m;
  }

  // ---- opening edges ----------------------------------------------------------------------

  /** A start of `n` gets to its dependency `k`: the ones before it are startable. */
  ghost predicate Opens(cfg: Config, n: Name, k: nat) {
    n in cfg.deps && k < |cfg.deps[n]| && forall j :: 0 <= j < k ==> Startable(cfg, cfg.deps[n][j])
  }

  ghost predicate OpenEdge(cfg: Config, n: Name, d: Name) {
    exists k: nat :: Opens(cfg, n, k) && cfg.deps[n][k] == d
  }

  ghost predicate OpenPath(cfg: Config, path: seq<Name>) {
    forall i :: 0 < i < |path| ==> OpenEdge(cfg, path[i - 1], path[i])
  }

  ghost predicate OpenCycle(cfg: Config, path: seq<Name>) {
    |path| > 1 && path[0] == path[|path| - 1] && OpenPath(cfg, path)
  }

  lemma OpenPathJoin(cfg: Config, a: seq<Name>, b: seq<Name>)
    requires a != [] && b != [] && OpenPath(cfg, a) && OpenPath(cfg, b) && a[|a| - 1] == b[0]
    ensures OpenPath(cfg, a + b[1..])
  {
    var path := a + b[1..];
    forall i | 0 < i < |path|
      ensures OpenEdge(cfg, path[i - 1], path[i])
    {
      if i >= |a| {
        var x := i - |a| + 1;
        assert path[i] == b[x] && path[i - 1] == b[x - 1];
        assert OpenEdge(cfg, b[x - 1], b[x]);
      } else {
        assert OpenEdge(cfg, a[i - 1], a[i]);
      }
    }
  }

  lemma {:induction false} OpenIsDependency(cfg: Config, path: seq<Name>)
    requires OpenPath(cfg, path)
    ensures DependencyPath(cfg, path)
    decreases |path|
  {
    if |path| > 1 {
      assert OpenEdge(cfg, path[1 - 1], path[1]);
      forall i | 0 < i < |path[1..]|
        ensures OpenEdge(cfg, path[1..][i - 1], path[1..][i])
      {
        assert OpenEdge(cfg, path[i + 1 - 1], path[i + 1]);
      }
      OpenIsDependency(cfg, path[1..]);
    }
  }

  /** Nothing on a cycle of opening edges is startable. */
  lemma CycleNotStartable(cfg: Config, path: seq<Name>, i: nat)
    requires OpenCycle(cfg, path) && i < |path|
    ensures !Startable(cfg, path[i])
  {
    if Startable(cfg, path[i]) {
      var tail := path[i..];
      forall j | 0 < j < |tail|
        ensures OpenEdge(cfg, tail[j - 1], tail[j])
      {
        assert OpenEdge(cfg, path[i + j - 1], path[i + j]);
      }
      OpenIsDependency(cfg, tail);
      PathDown(cfg, tail);
      OpenIsDependency(cfg, path);
      PathDown(cfg, path);
    }
  }

  /** A graph with falling ranks has no such cycle; the converse fails when a dependency without a manifest
      stands before the one that closes the cycle. */
  lemma {:induction false} RankedPath(cfg: Config, rank: Name -> nat, path: seq<Name>)
    requires Acyclic(cfg, rank) && |path| > 1 && DependencyPath(cfg, path)
    ensures rank(path[|path| - 1]) < rank(path[0])
    decreases |path|
  {
    var k :| 0 <= k < |cfg.deps[path[0]]| && cfg.deps[path[0]][k] == path[1];
    assert rank(cfg.deps[path[0]][k]) < rank(path[0]);
    if |path| > 2 {
      RankedPath(cfg, rank, path[1..]);
    }
  }

  lemma AcyclicHasNoOpenCycle(cfg: Config, rank: Name -> nat, path: seq<Name>)
    requires Acyclic(cfg, rank)
    ensures !OpenCycle(cfg, path)
  {
    if OpenCycle(cfg, path) {
      OpenIsDependency(cfg, path);
      RankedPath(cfg, rank, path);
    }
  }

  /** p depends on q, which has no manifest, and then on itself: a cycle that no start ever gets to. */
  lemma ClosedSelfDependency(path: seq<Name>)
    ensures var cfg := Config(map["p" := ["q", "p"]], {});
            DependencyPath(cfg, ["p", "p"]) && !OpenCycle(cfg, path)
  {
    var cfg := Config(map["p" := ["q", "p"]], {});
    assert ["p", "p"][1..] == ["p"] && DependsOn(cfg, "p", "p");
    forall a, b | OpenEdge(cfg, a, b)
      ensures a == "p" && b == "q"
    {
      var k: nat :| Opens(cfg, a, k) && cfg.deps[a][k] == b;
      assert !Startable(cfg, cfg.deps["p"][0]);
    }
    if |path| > 1 {
      assert OpenPath(cfg, path) ==> OpenEdge(cfg, path[1 - 1], path[1]) && OpenEdge(cfg, path[|path| - 1 - 1], path[|path| - 1]);
    }
  }
}
