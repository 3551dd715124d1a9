/**
 Under which router an end device is drawn, told from the devices and edges: first which
 cluster it is a member of, then where the layouts put it.
 */
module MeshHomes {
  import opened Basics
  import opened Sequences
  import opened MeshTypes
  import opened MeshSeriation
  import opened MeshOrdering
  import opened MeshGeometry
  import opened MeshClusterMode
  import opened MeshCoverage
  import opened MeshLayout

  /* ---------------- the router of an end device ---------------- */

  ghost predicate FirstRouter(devices: seq<Device>, r: Device) {
    exists i :: 0 <= i < |devices| && devices[i] == r && r.role == Router &&
                forall j :: 0 <= j < i ==> devices[j].role != Router
  }

  /**
   The strongest claim on an end device names this router, or names a coordinator and this is the first
   router listed. A claim by an empty id counts for nothing.
   */
  ghost predicate Under(devices: seq<Device>, edges: seq<Edge>, d: Device, r: Device) {
    exists c :: BestClaim(devices, edges, d.id, c) && c.router != "" &&
                if RoleOf(devices, c.router) == Some(Router) then r.id == c.router else FirstRouter(devices, r)
  }

  lemma {:induction false} RoleIs(devices: seq<Device>, d: Device)
    requires UniqueIds(devices) && d in devices
    ensures RoleOf(devices, d.id) == Some(d.role)
  {
    var init, last := devices[..|devices| - 1], devices[|devices| - 1];
    assert devices == init + [last];
    if last.id == d.id {
      SameDevice(devices, d, last);
    } else {
      assert Map(IdOf(), devices) == Map(IdOf(), init) + [last.id];
      UniqueInit(Map(IdOf(), init), last.id);
      RoleIs(init, d);
    }
  }

  lemma SameDevice(devices: seq<Device>, a: Device, b: Device)
    requires UniqueIds(devices) && a in devices && b in devices && a.id == b.id
    ensures a == b
  {
    var i :| 0 <= i < |devices| && devices[i] == a;
    var j :| 0 <= j < |devices| && devices[j] == b;
    assert Map(IdOf(), devices)[i] == Map(IdOf(), devices)[j];
  }

  /** An id with a role is that of a device. */
  lemma {:induction false} RoleListed(devices: seq<Device>, id: string)
    requires RoleOf(devices, id).Some?
    ensures exists d :: d in devices && d.id == id && Some(d.role) == RoleOf(devices, id)
  {
    var last := devices[|devices| - 1];
    if last.id == id {
      assert last in devices;
    } else {
      RoleListed(devices[..|devices| - 1], id);
    }
  }

  lemma RoleNamed(devices: seq<Device>, id: string, role: Role)
    requires UniqueIds(devices)
    ensures RoleOf(devices, id) == Some(role) <==> id in IdsOf(Filter(HasRole(role), devices))
  {
    hide RoleOf, UniqueIds;
    FilterMembers(HasRole(role), devices);
    if RoleOf(devices, id) == Some(role) {
      RoleListed(devices, id);
    }
    if id in IdsOf(Filter(HasRole(role), devices)) {
      var d :| d in Filter(HasRole(role), devices) && d.id == id;
      RoleIs(devices, d);
    }
  }

  lemma {:induction false} KeptIsFirst(devices: seq<Device>)
    requires Filter(HasRole(Router), devices) != []
    ensures FirstRouter(devices, Filter(HasRole(Router), devices)[0])
  {
    var init, last := devices[..|devices| - 1], devices[|devices| - 1];
    var routers := Filter(HasRole(Router), init);
    if routers != [] {
      KeptIsFirst(init);
      var i :| 0 <= i < |init| && init[i] == routers[0] && forall j :: 0 <= j < i ==> init[j].role != Router;
      forall j | 0 <= j < i ensures devices[j].role != Router { assert devices[j] == init[j]; }
      assert devices[i] == routers[0] && routers[0].role == Router;
    } else {
      FilterMembers(HasRole(Router), init);
      forall j | 0 <= j < |devices| - 1 ensures devices[j].role != Router { assert devices[j] in init; }
      assert devices[|devices| - 1] == last;
    }
  }

  /** The first router listed is the first one that is kept. */
  lemma FirstKept(devices: seq<Device>, r: Device)
    ensures
      var routers := Filter(HasRole(Router), devices);
      && (FirstRouter(devices, r) <==> routers != [] && routers[0] == r)
  {
    var routers := Filter(HasRole(Router), devices);
    FilterMembers(HasRole(Router), devices);
    if routers != [] { KeptIsFirst(devices); }
    if FirstRouter(devices, r) {
      assert r in routers;
      var i :| 0 <= i < |devices| && devices[i] == r && forall j :: 0 <= j < i ==> devices[j].role != Router;
      var j :| 0 <= j < |devices| && devices[j] == routers[0] && forall h :: 0 <= h < j ==> devices[h].role != Router;
    }
  }

  lemma HomeIsUnder(devices: seq<Device>, edges: seq<Edge>, d: Device, r: Device)
    requires UniqueIds(devices) && r in devices && r.role == Router
    ensures
      var coordinators, routers := Filter(HasRole(Coordinator), devices), Filter(HasRole(Router), devices);
      Home(Assigned(devices, edges), routers, coordinators, d) == Some(r.id) <==> Under(devices, edges, d, r)
  {
    hide Assigned, UniqueIds, BestClaim, FirstRouter, RoleOf;
    var coordinators, routers := Filter(HasRole(Coordinator), devices), Filter(HasRole(Router), devices);
    var best := Assigned(devices, edges);
    AssignedBest(devices, edges);
    FilterMembers(HasRole(Router), devices);
    FirstKept(devices, r);
    if d.id in best {
      var c := best[d.id];
      AnchorNamed(devices, edges, d.id, c);
      forall b | BestClaim(devices, edges, d.id, b) ensures b == c { BestClaimUnique(devices, edges, d.id, b, c); }
      if routers != [] && routers[0].id == r.id { SameDevice(devices, routers[0], r); }
    } else {
      forall b | BestClaim(devices, edges, d.id, b) ensures false { BestIsClaimed(devices, edges, d.id, b); }
    }
  }

  lemma BestIsClaimed(devices: seq<Device>, edges: seq<Edge>, id: string, c: Claim)
    requires BestClaim(devices, edges, id, c)
    ensures Claimed(devices, edges, id, c)
  {
  }

  /** Claims are made by routers and coordinators that are listed. */
  lemma AnchorNamed(devices: seq<Device>, edges: seq<Edge>, id: string, c: Claim)
    requires UniqueIds(devices) && BestClaim(devices, edges, id, c)
    ensures RoleOf(devices, c.router) == Some(Router) <==> c.router in IdsOf(Filter(HasRole(Router), devices))
    ensures RoleOf(devices, c.router) == Some(Coordinator) <==> c.router in IdsOf(Filter(HasRole(Coordinator), devices))
    ensures RoleOf(devices, c.router) == Some(Router) || RoleOf(devices, c.router) == Some(Coordinator)
    ensures RoleOf(devices, id) == Some(EndDevice)
  {
    hide RoleOf, UniqueIds;
    RoleNamed(devices, c.router, Router);
    RoleNamed(devices, c.router, Coordinator);
  }

  /* ---------------- the clusters ---------------- */

  /** The clusters are those of the routers listed. */
  lemma ClusterAt(rank: string -> int, devices: seq<Device>, edges: seq<Edge>, k: nat)
    requires UniqueIds(devices) && k < |GroupsOf(rank, devices, edges).clusters|
    ensures
      var coordinators, routers := Filter(HasRole(Coordinator), devices), Filter(HasRole(Router), devices);
      var ends := SortBy(ByName(rank), Filter(HasRole(EndDevice), devices));
      var c := GroupsOf(rank, devices, edges).clusters[k];
      && c.router in devices && c.router.role == Router
      && c.members == Filter(HomeIs(Assigned(devices, edges), routers, coordinators, Some(c.router.id)), ends)
  {
    hide OrderedRouters, Home, Assigned, UniqueIds, SortBy;
    var routers := Filter(HasRole(Router), devices);
    FilterMembers(HasRole(Router), devices);
    UniqueRouters(devices);
    OrderingIsPermutation(rank, routers, edges);
    PermutedMembers(OrderedRouters(rank, routers, edges), routers);
    assert OrderedRouters(rank, routers, edges)[k] in routers;
  }

  /** The members of a cluster are exactly the end devices under its router. */
  lemma MembersExactly(rank: string -> int, devices: seq<Device>, edges: seq<Edge>, k: nat, d: Device)
    requires UniqueIds(devices) && k < |GroupsOf(rank, devices, edges).clusters|
    ensures
      var c := GroupsOf(rank, devices, edges).clusters[k];
      d in c.members <==> d in devices && d.role == EndDevice && Under(devices, edges, d, c.router)
  {
    hide GroupsOf, Home, Assigned, UniqueIds, SortBy, Under;
    var coordinators, routers := Filter(HasRole(Coordinator), devices), Filter(HasRole(Router), devices);
    var ends := SortBy(ByName(rank), Filter(HasRole(EndDevice), devices));
    var c := GroupsOf(rank, devices, edges).clusters[k];
    ClusterAt(rank, devices, edges, k);
    FilterMembers(HasRole(EndDevice), devices);
    FilterMembers(HomeIs(Assigned(devices, edges), routers, coordinators, Some(c.router.id)), ends);
    HomeIsUnder(devices, edges, d, c.router);
  }

  /** Unassigned are exactly the end devices under no router. */
  lemma UnassignedExactly(rank: string -> int, devices: seq<Device>, edges: seq<Edge>, d: Device)
    requires UniqueIds(devices)
    ensures d in GroupsOf(rank, devices, edges).unassigned <==>
              d in devices && d.role == EndDevice &&
              forall r :: r in devices && r.role == Router ==> !Under(devices, edges, d, r)
  {
    hide OrderedRouters, Prominent, Assigned, UniqueIds, SortBy, Under;
    var coordinators, routers := Filter(HasRole(Coordinator), devices), Filter(HasRole(Router), devices);
    var ends := SortBy(ByName(rank), Filter(HasRole(EndDevice), devices));
    var home := Home(Assigned(devices, edges), routers, coordinators, d);
    FilterMembers(HasRole(EndDevice), devices);
    FilterMembers(HasRole(Router), devices);
    FilterMembers(HomeIs(Assigned(devices, edges), routers, coordinators, None), ends);
    forall r | r in devices && r.role == Router ensures Under(devices, edges, d, r) <==> home == Some(r.id) {
      HomeIsUnder(devices, edges, d, r);
    }
    if home.Some? { assert exists r :: r in routers && r.id == home.value; }
  }

  /**
   Told by the strongest claim: a router's claim puts the end device into that router's cluster and no other, a
   coordinator's into the first listed router's, or nowhere without routers; nor does a claim by an empty id.
   */
  lemma ClaimDecides(rank: string -> int, devices: seq<Device>, edges: seq<Edge>, d: Device, c: Claim)
    requires UniqueIds(devices) && d in devices && d.role == EndDevice && BestClaim(devices, edges, d.id, c)
    ensures
      var g := GroupsOf(rank, devices, edges);
      && (c.router != "" && RoleOf(devices, c.router) == Some(Router) ==>
            && d !in g.unassigned
            && forall k :: 0 <= k < |g.clusters| ==> (d in g.clusters[k].members <==> g.clusters[k].router.id == c.router))
      && (c.router != "" && RoleOf(devices, c.router) == Some(Coordinator) && g.clusters != [] ==>
            && d !in g.unassigned
            && forall k :: 0 <= k < |g.clusters| ==>
                 (d in g.clusters[k].members <==> FirstRouter(devices, g.clusters[k].router)))
      && (c.router == "" || (RoleOf(devices, c.router) == Some(Coordinator) && g.clusters == []) ==> d in g.unassigned)
  {
    hide GroupsOf, UniqueIds, BestClaim, FirstRouter, RoleOf;
    var g := GroupsOf(rank, devices, edges);
    forall b | BestClaim(devices, edges, d.id, b) ensures b == c { BestClaimUnique(devices, edges, d.id, b, c); }
    forall k | 0 <= k < |g.clusters|
      ensures d in g.clusters[k].members <==> Under(devices, edges, d, g.clusters[k].router)
    {
      MembersExactly(rank, devices, edges, k, d);
    }
    UnassignedExactly(rank, devices, edges, d);
    AnchorNamed(devices, edges, d.id, c);
    RoutersListed(rank, devices, edges);
    if RoleOf(devices, c.router) == Some(Router) {
      RoleListed(devices, c.router);
      var r :| r in devices && r.id == c.router && r.role == Router;
      assert c.router != "" ==> Under(devices, edges, d, r);
    } else if g.clusters != [] {
      assert Filter(HasRole(Router), devices) != [];
      var first := Filter(HasRole(Router), devices)[0];
      FirstKept(devices, first);
      FilterMembers(HasRole(Router), devices);
      assert first in devices && first.role == Router by { assert first in Filter(HasRole(Router), devices); }
      assert c.router != "" ==> Under(devices, edges, d, first);
    } else {
      FilterMembers(HasRole(Router), devices);
    }
  }

  lemma RoutersListed(rank: string -> int, devices: seq<Device>, edges: seq<Edge>)
    requires UniqueIds(devices)
    ensures |GroupsOf(rank, devices, edges).clusters| == |Filter(HasRole(Router), devices)|
  {
    hide OrderedRouters, Home, Assigned, UniqueIds, SortBy, Prominent;
    var routers := Filter(HasRole(Router), devices);
    UniqueRouters(devices);
    OrderingIsPermutation(rank, routers, edges);
    PermutedMembers(OrderedRouters(rank, routers, edges), routers);
  }

  /** Without any evidence to a router or coordinator an end device is unassigned. */
  lemma UnclaimedIsUnassigned(rank: string -> int, devices: seq<Device>, edges: seq<Edge>, d: Device)
    requires UniqueIds(devices) && d in devices && d.role == EndDevice
    requires forall c :: !Claimed(devices, edges, d.id, c)
    ensures d in GroupsOf(rank, devices, edges).unassigned
  {
    hide GroupsOf, UniqueIds, Claimed;
    UnassignedExactly(rank, devices, edges, d);
  }

  /** The strongest claim is by the highest recorded LQI there is, if any is recorded, and by the first id among equals. */
  lemma BestIsStrongest(devices: seq<Device>, edges: seq<Edge>, id: string, c: Claim, e: Edge, other: Claim)
    requires BestClaim(devices, edges, id, c) && e in edges && Evidences(devices, e, id, other)
    ensures e.lqi.Some? ==> c.lqi.Some? && c.lqi.value >= e.lqi.value
    ensures c.lqi == e.lqi ==> TextLe(c.router, other.router)
    ensures exists f :: f in edges && Evidences(devices, f, id, c) && f.lqi == c.lqi
  {
    TextLePreorder();
    assert Claimed(devices, edges, id, other);
    var f :| f in edges && Evidences(devices, f, id, c);
  }

  /* ---------------- the order within a group ---------------- */

  /** In name order, and by id among namesakes. */
  ghost predicate InNameOrder(rank: string -> int, l: seq<Device>) {
    forall i, j :: 0 <= i < j < |l| ==>
      rank(l[i].name) < rank(l[j].name) || (rank(l[i].name) == rank(l[j].name) && rank(l[i].id) <= rank(l[j].id))
  }

  /** The best connected first: nobody comes after a device with fewer neighbour edges, or after a later namesake. */
  ghost predicate InProminence(rank: string -> int, edges: seq<Edge>, l: seq<Device>) {
    forall i, j :: 0 <= i < j < |l| ==>
      var a, b := NeighbourDegree(edges, l[i].id), NeighbourDegree(edges, l[j].id);
      a > b || (a == b && rank(l[i].name) <= rank(l[j].name))
  }

  lemma NameOrder(rank: string -> int, devices: seq<Device>, p: Device -> bool)
    ensures InNameOrder(rank, SortBy(ByName(rank), devices))
    ensures InNameOrder(rank, Filter(p, SortBy(ByName(rank), devices)))
  {
    hide SortBy, Filter;
    assert Preorder(ByName(rank));
    SortBySorted(ByName(rank), devices);
    FilterSorted(p, ByName(rank), SortBy(ByName(rank), devices));
    var all, kept := SortBy(ByName(rank), devices), Filter(p, SortBy(ByName(rank), devices));
    forall i, j | 0 <= i < j < |all| ensures ByName(rank)(all[i], all[j]) {}
    forall i, j | 0 <= i < j < |kept| ensures ByName(rank)(kept[i], kept[j]) {}
  }

  lemma Prominence(rank: string -> int, edges: seq<Edge>, devices: seq<Device>)
    ensures InProminence(rank, edges, Prominent(rank, edges, devices))
  {
    hide SortBy, NeighbourDegree;
    var le := ByProminence(rank, edges);
    forall a, b ensures le(a, b) <==>
      var da, db := NeighbourDegree(edges, a.id), NeighbourDegree(edges, b.id);
      da > db || (da == db && (rank(a.name) < rank(b.name) || (rank(a.name) == rank(b.name) && rank(a.id) <= rank(b.id))))
    {
      assert ByName(rank)(a, b) <==>
               rank(a.name) < rank(b.name) || (rank(a.name) == rank(b.name) && rank(a.id) <= rank(b.id));
    }
    assert Preorder(le);
    SortBySorted(ByProminence(rank, edges), devices);
    var all := Prominent(rank, edges, devices);
    forall i, j | 0 <= i < j < |all| ensures ByProminence(rank, edges)(all[i], all[j]) {}
  }

  /** Members and unassigned end devices stand in name order, coordinators and limited devices by how well they are connected. */
  lemma GroupsSorted(rank: string -> int, devices: seq<Device>, edges: seq<Edge>)
    requires UniqueIds(devices)
    ensures
      var g := GroupsOf(rank, devices, edges);
      && InProminence(rank, edges, g.coordinators) && InProminence(rank, edges, g.limited)
      && InNameOrder(rank, g.unassigned)
      && forall k :: 0 <= k < |g.clusters| ==> InNameOrder(rank, g.clusters[k].members)
  {
    hide OrderedRouters, Home, Assigned, UniqueIds, SortBy, InNameOrder, InProminence, Filter;
    var g := GroupsOf(rank, devices, edges);
    var coordinators, routers := Filter(HasRole(Coordinator), devices), Filter(HasRole(Router), devices);
    var ends, best := Filter(HasRole(EndDevice), devices), Assigned(devices, edges);
    Prominence(rank, edges, coordinators);
    Prominence(rank, edges, Filter(HasRole(UnknownRole), devices));
    NameOrder(rank, ends, HomeIs(best, routers, coordinators, None));
    forall k | 0 <= k < |g.clusters| ensures InNameOrder(rank, g.clusters[k].members) {
      ClusterAt(rank, devices, edges, k);
      NameOrder(rank, ends, HomeIs(best, routers, coordinators, Some(g.clusters[k].router.id)));
    }
  }

  /** Two routers stand in id order; of more, those the chain leaves over follow it in name order. */
  lemma RestInOrder(rank: string -> int, routers: seq<Device>, edges: seq<Edge>)
    ensures
      var r := OrderedRouters(rank, routers, edges);
      && (|routers| <= 2 ==> forall i, j :: 0 <= i < j < |r| ==> rank(r[i].id) <= rank(r[j].id))
      && (|routers| > 2 ==>
            var n := |Seriated(rank, routers, edges).linked|;
            n <= |r| && InNameOrder(rank, r[n..]))
  {
    hide SortBy, Seriated, IdMap, InNameOrder;
    var r := OrderedRouters(rank, routers, edges);
    if |routers| <= 2 {
      assert Preorder(ById(rank));
      SortBySorted(ById(rank), routers);
      forall i, j | 0 <= i < j < |r| ensures rank(r[i].id) <= rank(r[j].id) { assert ById(rank)(r[i], r[j]); }
    } else {
      var c, m := Seriated(rank, routers, edges), IdMap(routers);
      NameOrder(rank, Named(m, c.left), HasRole(Router));
      assert r[|c.linked|..] == SortBy(ByName(rank), Named(m, c.left));
    }
  }
}
