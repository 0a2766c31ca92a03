/** The bridge's directory of connected devices and clusters: `serveDevice`, `serveCluster`, `Shutdown`,
    `Snapshot`, the tenancy decisions of `handleClustersList` and `proxyToCluster`, and the routing of
    `deviceHandler`, which takes none. */
module Broker {
  import opened Wrappers

  /** One accepted tunnel session. A session is known by its number; `Conn` is what its certificate said. */
  datatype Conn = Conn(id: string, orgId: string, admin: bool, device: bool)

  /** What a device's request gets: an error, or the session it goes through. */
  datatype Answer = BadRequest | Offline | Through(session: nat)

  datatype Event = Attached(k: nat) | Detached(k: nat) | WasShutDown

  // ---- who is connected, from the events alone --------------------------------------------

  /** After position `p`, session `k` was detached or the broker shut down. */
  ghost predicate GoneAfter(log: seq<Event>, p: nat, k: nat) {
    exists q :: p < q < |log| && (log[q] == Detached(k) || log[q] == WasShutDown)
  }

  /** The devices of `id` among the first `n` events that were attached since the last shutdown and not
      detached up to the end of the log, in the order they attached. */
  ghost function PresentAmong(conns: seq<Conn>, log: seq<Event>, id: string, n: nat): seq<nat>
    requires n <= |log|
  {
    if n == 0 then []
    else
      var e := log[n - 1];
      PresentAmong(conns, log, id, n - 1)
      + if e.Attached? && e.k < |conns| && conns[e.k].id == id && !GoneAfter(log, n - 1, e.k) then [e.k] else []
  }

  ghost function Present(conns: seq<Conn>, log: seq<Event>, id: string): seq<nat> {
    PresentAmong(conns, log, id, |log|)
  }

  /** Every session attaches at most once, and detaches only after that. */
  ghost predicate LogOk(conns: seq<Conn>, log: seq<Event>) {
    && (forall p :: 0 <= p < |log| && log[p].Attached? ==> log[p].k < |conns| && conns[log[p].k].device)
    && (forall p, q :: 0 <= p < q < |log| && log[p].Attached? && log[q].Attached? ==> log[p].k != log[q].k)
  }

  function Without(list: seq<nat>, k: nat): seq<nat> {
    if list == [] then []
    else Without(list[..|list| - 1], k) + if list[|list| - 1] == k then [] else [list[|list| - 1]]
  }

  lemma GoneAfterAppend(log: seq<Event>, e: Event, p: nat, k: nat)
    requires p < |log|
    ensures GoneAfter(log + [e], p, k) <==> GoneAfter(log, p, k) || e == Detached(k) || e == WasShutDown
  {
    var longer := log + [e];
    if GoneAfter(log, p, k) {
      var q :| p < q < |log| && (log[q] == Detached(k) || log[q] == WasShutDown);
      assert longer[q] == log[q];
    }
    assert longer[|log|] == e;
    if GoneAfter(longer, p, k) {
      var q :| p < q < |longer| && (longer[q] == Detached(k) || longer[q] == WasShutDown);
      assert q < |log| ==> longer[q] == log[q];
    }
  }

  /** What one more event does to the sessions present among the first `n`. */
  lemma {:induction false} PresentAppend(conns: seq<Conn>, log: seq<Event>, e: Event, id: string, n: nat)
    requires n <= |log|
    ensures PresentAmong(conns, log + [e], id, n) ==
            match e
            case WasShutDown => []
            case Detached(k) => Without(PresentAmong(conns, log, id, n), k)
            case Attached(_) => PresentAmong(conns, log, id, n)
  {
    if n > 0 {
      PresentAppend(conns, log, e, id, n - 1);
      var last := log[n - 1];
      assert (log + [e])[n - 1] == last;
      if last.Attached? {
        GoneAfterAppend(log, e, n - 1, last.k);
      }
      var before := PresentAmong(conns, log, id, n - 1);
      assert before + [] == before;
      if e.Detached? && last.Attached? {
        WithoutAppend(before, last.k, e.k);
      }
    }
  }

  lemma WithoutAppend(list: seq<nat>, last: nat, k: nat)
    ensures Without(list + [last], k) == Without(list, k) + if last == k then [] else [last]
  {
    assert (list + [last])[..|list|] == list;
  }

  lemma LogAppend(conns: seq<Conn>, log: seq<Event>, e: Event, id: string)
    requires e.Attached? ==> e.k < |conns|
    ensures Present(conns, log + [e], id) ==
            match e
            case WasShutDown => []
            case Detached(k) => Without(Present(conns, log, id), k)
            case Attached(k) => Present(conns, log, id) + if conns[k].id == id then [k] else []
  {
    PresentAppend(conns, log, e, id, |log|);
    assert (log + [e])[|log|] == e && (e.Attached? ==> !GoneAfter(log + [e], |log|, e.k));
  }

  lemma {:induction false} PresentWithMore(conns: seq<Conn>, c: Conn, log: seq<Event>, id: string, n: nat)
    requires n <= |log| && LogOk(conns, log)
    ensures PresentAmong(conns + [c], log, id, n) == PresentAmong(conns, log, id, n)
  {
    if n > 0 {
      PresentWithMore(conns, c, log, id, n - 1);
    }
  }

  /** Present sessions are of that id, and none is listed twice. */
  lemma {:induction false} PresentDistinct(conns: seq<Conn>, log: seq<Event>, id: string, n: nat)
    requires n <= |log| && LogOk(conns, log)
    ensures var list := PresentAmong(conns, log, id, n);
            && (forall k: nat :: k in list ==> k < |conns| && conns[k].id == id && exists p :: 0 <= p < n && log[p] == Attached(k))
            && (forall i, j :: 0 <= i < j < |list| ==> list[i] != list[j])
  {
    if n > 0 {
      PresentDistinct(conns, log, id, n - 1);
    }
  }

  /** Cutting out the one occurrence is leaving the session out. */
  lemma {:induction false} SpliceIsWithout(list: seq<nat>, i: nat, k: nat)
    requires i < |list| && list[i] == k && forall a, b :: 0 <= a < b < |list| ==> list[a] != list[b]
    ensures list[..i] + list[i + 1..] == Without(list, k)
  {
    var n := |list| - 1;
    var front := list[..n];
    if i == n {
      NothingToRemove(front, k);
      assert list[..i] + list[i + 1..] == front;
    } else {
      SpliceIsWithout(front, i, k);
      assert list[..i] + list[i + 1..] == (front[..i] + front[i + 1..]) + [list[n]];
    }
  }

  lemma {:induction false} NothingToRemove(list: seq<nat>, k: nat)
    requires k !in list
    ensures Without(list, k) == list
  {
    if list != [] {
      NothingToRemove(list[..|list| - 1], k);
    }
  }

  // ---- the directory ------------------------------------------------------------------------

  function ListAt(devices: map<string, seq<nat>>, id: string): seq<nat> {
    if id in devices then devices[id] else []
  }

  ghost predicate DevicesOk(conns: seq<Conn>, log: seq<Event>, devices: map<string, seq<nat>>) {
    && LogOk(conns, log)
    && (forall id :: id in devices ==> devices[id] != [])
    && forall id :: ListAt(devices, id) == Present(conns, log, id)
  }

  /** The entry of a cluster id is a session of that id, and no other session of it is still open. */
  ghost predicate ClustersOk(conns: seq<Conn>, closed: set<nat>, clusters: map<string, nat>) {
    && (forall k :: k in closed ==> k < |conns|)
    && (forall id :: id in clusters ==> clusters[id] < |conns| && !conns[clusters[id]].device && conns[clusters[id]].id == id)
    && (forall k :: 0 <= k < |conns| && !conns[k].device && k !in closed ==> conns[k].id in clusters && clusters[conns[k].id] == k)
  }

  /** Another session is accepted; nothing it does is in the log yet. */
  lemma DevicesAccept(conns: seq<Conn>, c: Conn, log: seq<Event>, devices: map<string, seq<nat>>)
    requires DevicesOk(conns, log, devices)
    ensures DevicesOk(conns + [c], log, devices)
  {
    forall id
      ensures ListAt(devices, id) == Present(conns + [c], log, id)
    {
      PresentWithMore(conns, c, log, id, |log|);
    }
  }

  lemma DevicesLogged(conns: seq<Conn>, log: seq<Event>, devices: map<string, seq<nat>>, e: Event, devices': map<string, seq<nat>>)
    requires DevicesOk(conns, log, devices) && LogOk(conns, log + [e])
    requires forall id :: id in devices' ==> devices'[id] != []
    requires forall id :: ListAt(devices', id) ==
               match e
               case WasShutDown => []
               case Detached(k) => Without(ListAt(devices, id), k)
               case Attached(k) => if k < |conns| && conns[k].id == id then ListAt(devices, id) + [k] else ListAt(devices, id)
    ensures DevicesOk(conns, log + [e], devices')
  {
    assert e.Attached? ==> (log + [e])[|log|].k < |conns|;
    forall id
      ensures ListAt(devices', id) == Present(conns, log + [e], id)
    {
      LogAppend(conns, log, e, id);
    }
  }

  /** A device session is in no list but its own. */
  lemma OthersUntouched(conns: seq<Conn>, log: seq<Event>, devices: map<string, seq<nat>>, k: nat, id: string)
    requires DevicesOk(conns, log, devices) && k < |conns| && conns[k].id != id
    ensures Without(ListAt(devices, id), k) == ListAt(devices, id)
  {
    PresentDistinct(conns, log, id, |log|);
    NothingToRemove(ListAt(devices, id), k);
  }

  class Broker {
    const devMode: bool
    var devices: map<string, seq<nat>>
    var clusters: map<string, nat>
    /** The sessions accepted so far, and those whose connection is closed. */
    var conns: seq<Conn>
    var closed: set<nat>
    ghost var log: seq<Event>

    ghost predicate Valid()
      reads this
    {
      DevicesOk(conns, log, devices) && ClustersOk(conns, closed, clusters)
    }

    constructor (devMode: bool)
      ensures Valid() && this.devMode == devMode && conns == [] && log == [] && closed == {}
    {
      this.devMode := devMode;
      devices, clusters, conns, closed, log := map[], map[], [], {}, [];
    }

    /** The session goes to the end of its id's list; its siblings stay. */
    method AttachDevice(id: string, orgId: string, admin: bool) returns (k: nat)
      requires Valid()
      modifies this
      ensures Valid() && k == |old(conns)| && conns == old(conns) + [Conn(id, orgId, admin, true)]
      ensures log == old(log) + [Attached(k)] && closed == old(closed) && clusters == old(clusters)
      ensures devices == old(devices)[id := ListAt(old(devices), id) + [k]]
    {
      hide DevicesOk, Present;
      k := |conns|;
      var c := Conn(id, orgId, admin, true);
      DevicesAccept(conns, c, log, devices);
      AttachLogOk(conns, log, devices, c);
      ghost var was := devices;
      conns := conns + [c];
      devices := devices[id := ListAt(devices, id) + [k]];
      NoneEmpty(conns, log, was);
      DevicesLogged(conns, log, was, Attached(k), devices);
      log := log + [Attached(k)];
    }

    /** The cleanup of `serveDevice`. It finds the session unless a shutdown came first, and takes out that
        one session. */
    method DetachDevice(k: nat)
      requires Valid() && k < |conns| && conns[k].device
      modifies this`devices, this`log
      ensures Valid() && log == old(log) + [Detached(k)]
      ensures forall id :: ListAt(devices, id) == Without(ListAt(old(devices), id), k)
    {
      hide DevicesOk, Present;
      var id := conns[k].id;
      var list := ListAt(devices, id);
      ghost var was := devices;
      NoneEmpty(conns, log, was);
      ListDistinct(conns, log, devices, id);
      var i := 0;
      while i < |list| && list[i] != k
        invariant 0 <= i <= |list| && k !in list[..i]
      {
        i := i + 1;
      }
      if i < |list| {
        SpliceIsWithout(list, i, k);
        devices := devices[id := list[..i] + list[i + 1..]];
      } else {
        assert list[..i] == list;
        NothingToRemove(list, k);
      }
      var remaining := |ListAt(devices, id)|;
      if remaining == 0 {
        devices := devices - {id};
      }
      forall other
        ensures ListAt(devices, other) == Without(ListAt(was, other), k)
      {
        if other != id {
          OthersUntouched(conns, log, was, k, other);
        }
      }
      DetachLogOk(conns, log, was, k);
      DevicesLogged(conns, log, was, Detached(k), devices);
      log := log + [Detached(k)];
    }

    /** The connection of session `k` ends, from either side. */
    method Close(k: nat)
      requires Valid() && k < |conns|
      modifies this`closed
      ensures Valid() && closed == old(closed) + {k}
    {
      closed := closed + {k};
    }

    /** The new session takes over the id, and the one that had it is closed. */
    method AttachCluster(id: string, orgId: string) returns (k: nat)
      requires Valid()
      modifies this
      ensures Valid() && k == |old(conns)| && conns == old(conns) + [Conn(id, orgId, false, false)]
      ensures clusters == old(clusters)[id := k] && devices == old(devices) && log == old(log)
      ensures closed == old(closed) + if id in old(clusters) then {old(clusters)[id]} else {}
    {
      hide DevicesOk;
      k := |conns|;
      DevicesAccept(conns, Conn(id, orgId, false, false), log, devices);
      if id in clusters {
        closed := closed + {clusters[id]};
      }
      clusters := clusters[id := k];
      conns := conns + [Conn(id, orgId, false, false)];
    }

    /** The cleanup of `serveCluster`, which runs once the session is closed. The entry goes only if it is
        this session's: a successor stays. */
    method DetachCluster(k: nat)
      requires Valid() && k < |conns| && !conns[k].device && k in closed
      modifies this`clusters
      ensures Valid()
      ensures forall id :: id in clusters <==> id in old(clusters) && old(clusters)[id] != k
      ensures forall id :: id in clusters ==> clusters[id] == old(clusters)[id]
    {
      hide DevicesOk;
      var id := conns[k].id;
      if id in clusters && clusters[id] == k {
        clusters := clusters - {id};
      }
    }

    /** Closing is all that happens to one list of sessions. */
    method CloseList(list: seq<nat>)
      requires ClustersOk(conns, closed, clusters) && forall i :: 0 <= i < |list| ==> list[i] < |conns|
      modifies this`closed
      ensures ClustersOk(conns, closed, clusters)
      ensures forall k :: k in closed <==> k in old(closed) || k in list
    {
      for i := 0 to |list|
        invariant ClustersOk(conns, closed, clusters)
        invariant forall k :: k in closed <==> k in old(closed) || k in list[..i]
      {
        closed := closed + {list[i]};
      }
      assert list[..|list|] == list;
    }

    /** Every session still listed is closed and nothing is listed any more. No cluster session stays open. */
    method Shutdown()
      requires Valid()
      modifies this`devices, this`clusters, this`closed, this`log
      ensures Valid() && devices == map[] && clusters == map[] && log == old(log) + [WasShutDown]
      ensures old(closed) <= closed
      ensures forall id, k: nat :: id in old(devices) && k in old(devices)[id] ==> k in closed
      ensures forall k :: 0 <= k < |conns| && !conns[k].device ==> k in closed
    {
      hide DevicesOk;
      var todo := devices.Keys;
      while todo != {}
        invariant todo <= devices.Keys
        invariant ClustersOk(conns, closed, clusters) && old(closed) <= closed
        invariant forall id, k: nat :: id in devices && id !in todo && k in devices[id] ==> k in closed
        modifies this`closed
      {
        var id :| id in todo;
        ListDistinct(conns, log, devices, id);
        CloseList(devices[id]);
        todo := todo - {id};
      }
      var ids := clusters.Keys;
      while ids != {}
        invariant ids <= clusters.Keys
        invariant ClustersOk(conns, closed, clusters) && old(closed) <= closed
        invariant forall id, k: nat :: id in devices && k in devices[id] ==> k in closed
        invariant forall id :: id in clusters && id !in ids ==> clusters[id] in closed
        modifies this`closed
      {
        var id :| id in ids;
        closed := closed + {clusters[id]};
        ids := ids - {id};
      }
      ShutdownLogOk(conns, log, devices);
      DevicesLogged(conns, log, devices, WasShutDown, map[]);
      devices := map[];
      clusters := map[];
      log := log + [WasShutDown];
    }

    // ---- tenancy ------------------------------------------------------------------------------

    /** The session a request for `id` goes through; None is the "offline" answer. */
    function Routed(reqOrg: string, reqAdmin: bool, id: string): (r: Option<nat>)
      requires Valid()
      reads this
    {
      if id !in clusters || (!reqAdmin && !devMode && conns[clusters[id]].orgId != reqOrg) then None else Some(clusters[id])
    }

    /** `proxyToCluster`: a session of another organisation is reached only by an admin or in dev mode, and a
        session that is reached is the newest of its id. */
    method Route(reqOrg: string, reqAdmin: bool, id: string) returns (r: Option<nat>)
      requires Valid()
      ensures r == Routed(reqOrg, reqAdmin, id)
      ensures r.Some? ==> r.value < |conns| && conns[r.value].id == id && (conns[r.value].orgId == reqOrg || reqAdmin || devMode)
      ensures forall k :: 0 <= k < |conns| && !conns[k].device && conns[k].id == id && k !in closed && r.Some? ==> r.value == k
    {
      if id !in clusters {
        return None;
      }
      var cluster := clusters[id];
      if !reqAdmin && !devMode && conns[cluster].orgId != reqOrg {
        return None;
      }
      r := Some(cluster);
    }

    /** The ids `handleClustersList` shows: exactly those to which a request of the same requester would be
        routed, in every mode. */
    method ListClusters(reqOrg: string, reqAdmin: bool) returns (ids: seq<string>)
      requires Valid()
      ensures forall id :: id in ids <==> Routed(reqOrg, reqAdmin, id).Some?
      ensures |ids| <= |clusters.Keys|
    {
      ids := [];
      var todo := clusters.Keys;
      while todo != {}
        invariant todo <= clusters.Keys && |ids| + |todo| <= |clusters.Keys|
        invariant forall id :: id in ids <==> id !in todo && Routed(reqOrg, reqAdmin, id).Some?
      {
        var id :| id in todo;
        todo := todo - {id};
        var c := conns[clusters[id]];
        if !devMode && !reqAdmin && c.orgId != reqOrg {
          continue;
        }
        ids := ids + [c.id];
      }
    }

    /** The answer to a device's request for `target`, whichever device asks. */
    function DeviceRouted(target: string): (a: Answer)
      requires Valid()
      reads this
    {
      if target == "" then BadRequest else if target !in clusters then Offline else Through(clusters[target])
    }

    /** `deviceHandler`: a request that names a connected cluster goes through the newest session of it. */
    method RouteDevice(target: string) returns (a: Answer)
      requires Valid()
      ensures a == DeviceRouted(target)
      ensures a == BadRequest <==> target == ""
      ensures a.Through? ==> a.session < |conns| && !conns[a.session].device && conns[a.session].id == target
      ensures forall k :: 0 <= k < |conns| && !conns[k].device && conns[k].id == target && k !in closed && target != "" ==> a == Through(k)
    {
      if target == "" {
        return BadRequest;
      }
      if target !in clusters {
        return Offline;
      }
      a := Through(clusters[target]);
    }

    /** The tenancy rule for device `k`: what it reaches is of its own organisation. Admin certificates and dev
        mode are exempt. */
    ghost predicate StaysInside(k: nat, target: string)
      requires Valid() && k < |conns|
      reads this
    {
      var a := DeviceRouted(target);
      a.Through? ==> devMode || conns[k].admin || conns[a.session].orgId == conns[k].orgId
    }

    ghost predicate DeviceListed(k: nat)
      reads this
    {
      k < |conns| && k in ListAt(devices, conns[k].id)
    }

    /** The devices part of the census: every session present, once. */
    method SnapshotDevices() returns (sessions: seq<nat>)
      requires Valid()
      ensures forall k: nat :: k in sessions <==> k < |conns| && k in Present(conns, log, conns[k].id)
      ensures Distinct(sessions)
    {
      hide DevicesOk, Present;
      sessions := [];
      var todo := devices.Keys;
      while todo != {}
        invariant todo <= devices.Keys
        invariant forall k: nat :: k in sessions <==> k < |conns| && conns[k].id !in todo && k in ListAt(devices, conns[k].id)
        invariant Distinct(sessions)
      {
        var id :| id in todo;
        ListDistinct(conns, log, devices, id);
        assert forall i :: 0 <= i < |sessions| ==> sessions[i] in sessions;
        StillDistinct(conns, sessions, devices[id], id);
        sessions := sessions + devices[id];
        todo := todo - {id};
      }
      forall id
        ensures ListAt(devices, id) == Present(conns, log, id)
      {
        ListIsPresent(conns, log, devices, id);
      }
    }
  }

  // ---- when device requests stay inside their organisation ---------------------------------------

  /** Nothing crosses organisations exactly when there is nobody to cross to: outside dev mode, every cluster
      connected is of the organisation of every device connected, admins aside. */
  lemma InsideIffOneOrganisation(b: Broker)
    requires b.Valid()
    ensures (forall k: nat, target :: b.DeviceListed(k) ==> b.StaysInside(k, target))
            <==> b.devMode || forall k: nat, id :: b.DeviceListed(k) && !b.conns[k].admin && id in b.clusters && id != "" ==>
                                b.conns[b.clusters[id]].orgId == b.conns[k].orgId
  {
    forall k: nat, id | b.DeviceListed(k) && id in b.clusters && id != "" && b.StaysInside(k, id)
      ensures b.devMode || b.conns[k].admin || b.conns[b.clusters[id]].orgId == b.conns[k].orgId
    {
      assert b.DeviceRouted(id) == Through(b.clusters[id]);
    }
  }

  /** One request stays inside exactly when its target is not connected, or connected by its own organisation,
      or the requester is exempt. The test of `proxyToCluster`, asked with the device's own certificate, would
      answer "offline" to the requests that go across, and leave every other answer as it is. */
  lemma CheckStopsExactlyCrossing(b: Broker, k: nat, target: string)
    requires b.Valid() && k < |b.conns| && target != ""
    ensures b.StaysInside(k, target) <==>
            target !in b.clusters || b.conns[b.clusters[target]].orgId == b.conns[k].orgId || b.conns[k].admin || b.devMode
    ensures var checked := match b.Routed(b.conns[k].orgId, b.conns[k].admin, target) case None => Offline case Some(s) => Through(s);
            checked == if b.StaysInside(k, target) then b.DeviceRouted(target) else Offline
  {}

  /** A device of one organisation and a cluster of another: the request goes across. */
  method RoutesAcross() returns (b: Broker, device: nat, cluster: nat)
    ensures fresh(b) && b.Valid() && !b.devMode
    ensures b.conns == [Conn("laptop", "org-a", false, true), Conn("prod", "org-b", false, false)] && b.closed == {}
    ensures device == 0 && b.DeviceListed(device) && b.DeviceRouted("prod") == Through(cluster)
    ensures !b.StaysInside(device, "prod") && b.Routed("org-a", false, "prod") == None
  {
    b := new Broker(false);
    device := b.AttachDevice("laptop", "org-a", false);
    cluster := b.AttachCluster("prod", "org-b");
  }

  // ---- small facts for the methods -----------------------------------------------------------

  lemma AttachLogOk(conns: seq<Conn>, log: seq<Event>, devices: map<string, seq<nat>>, c: Conn)
    requires DevicesOk(conns, log, devices) && c.device
    ensures LogOk(conns + [c], log + [Attached(|conns|)])
  {}

  lemma DetachLogOk(conns: seq<Conn>, log: seq<Event>, devices: map<string, seq<nat>>, k: nat)
    requires DevicesOk(conns, log, devices)
    ensures LogOk(conns, log + [Detached(k)])
  {}

  lemma ShutdownLogOk(conns: seq<Conn>, log: seq<Event>, devices: map<string, seq<nat>>)
    requires DevicesOk(conns, log, devices)
    ensures LogOk(conns, log + [WasShutDown])
  {}

  lemma NoneEmpty(conns: seq<Conn>, log: seq<Event>, devices: map<string, seq<nat>>)
    requires DevicesOk(conns, log, devices)
    ensures forall id :: id in devices ==> devices[id] != []
  {}

  lemma ListIsPresent(conns: seq<Conn>, log: seq<Event>, devices: map<string, seq<nat>>, id: string)
    requires DevicesOk(conns, log, devices)
    ensures ListAt(devices, id) == Present(conns, log, id)
  {}

  ghost predicate AllOf(conns: seq<Conn>, list: seq<nat>, id: string) {
    forall i :: 0 <= i < |list| ==> list[i] < |conns| && conns[list[i]].id == id
  }

  ghost predicate Distinct(list: seq<nat>) {
    forall i, j :: 0 <= i < j < |list| ==> list[i] != list[j]
  }

  lemma ListDistinct(conns: seq<Conn>, log: seq<Event>, devices: map<string, seq<nat>>, id: string)
    requires DevicesOk(conns, log, devices)
    ensures AllOf(conns, ListAt(devices, id), id) && Distinct(ListAt(devices, id))
  {
    PresentDistinct(conns, log, id, |log|);
    assert forall i :: 0 <= i < |ListAt(devices, id)| ==> ListAt(devices, id)[i] in ListAt(devices, id);
  }

  /** Another id's list brings only sessions not listed so far. */
  lemma StillDistinct(conns: seq<Conn>, a: seq<nat>, b: seq<nat>, id: string)
    requires Distinct(a) && Distinct(b) && AllOf(conns, b, id)
    requires forall i :: 0 <= i < |a| ==> a[i] < |conns| && conns[a[i]].id != id
    ensures Distinct(a + b)
  {}
}
