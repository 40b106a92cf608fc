/** Every operation of the allocator keeps the partition and moves exactly the CPUs it should. */
module ClusterSteps {
  import opened Seqs
  import opened Topologies
  import opened Ceilings
  import opened ClusterSelection
  import opened ClusterSpec
  import opened ClusterInvariant

  /** Nothing but the placement of container id differs. */
  ghost predicate OnlyPlacement(s: State, r: State, id: string) {
    && id in s.dockers && r.dockers.Keys == s.dockers.Keys
    && (forall j :: j in s.dockers && j != id ==> r.dockers[j] == s.dockers[j])
    && r.dockers[id] == s.dockers[id].(cpuSet := r.dockers[id].cpuSet, memSet := r.dockers[id].memSet, bind := r.dockers[id].bind)
  }

  /** Only node n's lists of clusters differ. */
  ghost predicate OnlyNode(s: State, r: State, n: int) {
    forall m :: m != n ==> NodeAt(r.nodes, m) == NodeAt(s.nodes, m)
  }

  /** Only clusters the container holds afterwards differ. */
  ghost predicate OnlyHeld(s: State, r: State, id: string) {
    id in r.dockers && forall k :: k !in r.dockers[id].bind ==> ClusterAt(r.clusters, k) == ClusterAt(s.clusters, k)
  }

  /** Every CPU the container has gained was a free core, and no core has become free. */
  ghost predicate TookFree(s: State, r: State, id: string) {
    && id in s.dockers && id in r.dockers
    && (forall x :: x in r.dockers[id].cpuSet && x !in s.dockers[id].cpuSet ==> IsFree(s, x))
    && forall x :: IsFree(r, x) ==> IsFree(s, x)
  }

  ghost predicate IsFree(s: State, x: int) {
    exists c :: x in ClusterAt(s.clusters, c).free
  }

  lemma TookFreeTrans(s: State, m: State, r: State, id: string)
    requires TookFree(s, m, id) && TookFree(m, r, id)
    ensures TookFree(s, r, id)
  {
  }

  lemma GrabTakesFree(s: State, id: string, c: int, xs: seq<int>)
    requires id in s.dockers && forall x :: x in xs ==> x in ClusterAt(s.clusters, c).free
    ensures TookFree(s, Grab(s, id, c, xs), id)
  {
    var r := Grab(s, id, c, xs);
    forall x | x in r.dockers[id].cpuSet && x !in s.dockers[id].cpuSet ensures IsFree(s, x) {
      assert x in xs && x in ClusterAt(s.clusters, c).free;
    }
    forall x | IsFree(r, x) ensures IsFree(s, x) {
      var k :| x in ClusterAt(r.clusters, k).free;
      assert x in ClusterAt(s.clusters, k).free;
    }
  }

  lemma SameCoresTakeNone(s: State, r: State, id: string)
    requires id in s.dockers && id in r.dockers && r.clusters == s.clusters && r.dockers[id].cpuSet == s.dockers[id].cpuSet
    ensures TookFree(s, r, id)
  {
    assert forall x :: IsFree(r, x) <==> IsFree(s, x);
  }

  lemma OnlyPlacementTrans(s: State, m: State, r: State, id: string)
    requires OnlyPlacement(s, m, id) && OnlyPlacement(m, r, id)
    ensures OnlyPlacement(s, r, id)
  {
  }

  /** What a Claim changes. */
  lemma ClaimAdds(t: Topology, s: State, P: set<string>, id: string, n: int, c: int)
    requires Partitioned(t, s, P) && id in P && s.dockers[id].memSet == [n] && c in NodeAt(s.nodes, n).free
    ensures var r := Claim(s, id, n, c);
            && Partitioned(t, r, P) && OnlyPlacement(s, r, id) && OnlyNode(s, r, n) && r.clusters == s.clusters
            && r.dockers[id] == s.dockers[id].(bind := s.dockers[id].bind + [c])
            && |NodeAt(r.nodes, n).free| == |NodeAt(s.nodes, n).free| - 1
            && forall k :: k in NodeAt(r.nodes, n).free <==> k in NodeAt(s.nodes, n).free && k != c
  {
    hide Partitioned;
    PlacedIn(t, s, P, id);
    ClaimKeeps(t, s, P, id, n, c);
    ClusterPlace(t, s, P, n, c);
    WithoutBag(NodeAt(s.nodes, n).free, [c]);
  }

  lemma HeadAndTail(ids: seq<int>, b: seq<int>)
    requires |ids| > 0 && NoDup(ids)
    ensures NoDup(ids[1..]) && ids[0] in ids
    ensures forall k :: k in ids[1..] ==> k in ids && k != ids[0]
    ensures b + [ids[0]] + ids[1..] == b + ids
  {
    assert ids == [ids[0]] + ids[1..];
  }

  lemma {:induction false} ClaimAllKeeps(t: Topology, s: State, P: set<string>, id: string, n: int, ids: seq<int>)
    requires Partitioned(t, s, P) && id in P && s.dockers[id].memSet == [n]
    requires NoDup(ids) && forall c :: c in ids ==> c in NodeAt(s.nodes, n).free
    ensures var r := ClaimAll(s, id, n, ids);
            && Partitioned(t, r, P) && OnlyPlacement(s, r, id) && OnlyNode(s, r, n)
            && r.clusters == s.clusters
            && r.dockers[id] == s.dockers[id].(bind := s.dockers[id].bind + ids)
            && |NodeAt(r.nodes, n).free| == |NodeAt(s.nodes, n).free| - |ids|
    decreases |ids|
  {
    hide Partitioned;
    PlacedIn(t, s, P, id);
    if |ids| == 0 {
      assert s.dockers[id].bind + ids == s.dockers[id].bind;
    } else {
      var c, rest := ids[0], ids[1..];
      var s1 := Claim(s, id, n, c);
      hide Placed;
      HeadAndTail(ids, s.dockers[id].bind);
      ClaimAdds(t, s, P, id, n, c);
      assert forall k :: k in rest ==> k in NodeAt(s1.nodes, n).free;
      ClaimAllKeeps(t, s1, P, id, n, rest);
      OnlyPlacementTrans(s, s1, ClaimAll(s1, id, n, rest), id);
    }
  }

  /** What a Grab changes. */
  lemma GrabAdds(t: Topology, s: State, P: set<string>, id: string, c: int, xs: seq<int>)
    requires Partitioned(t, s, P) && id in P && c in s.dockers[id].bind
    requires NoDup(xs) && forall x :: x in xs ==> x in ClusterAt(s.clusters, c).free
    ensures var r := Grab(s, id, c, xs);
            && Partitioned(t, r, P) && OnlyPlacement(s, r, id) && r.nodes == s.nodes
            && r.dockers[id] == s.dockers[id].(cpuSet := s.dockers[id].cpuSet + xs)
            && (forall k :: k != c ==> ClusterAt(r.clusters, k) == ClusterAt(s.clusters, k))
            && TookFree(s, r, id)
  {
    hide Partitioned;
    hide TookFree;
    PlacedIn(t, s, P, id);
    hide Placed;
    GrabKeeps(t, s, P, id, c, xs);
    GrabTakesFree(s, id, c, xs);
  }

  /** Picking from a held cluster's free cores yields cores it can Grab. */
  lemma PickFromIsFree(t: Topology, sel: Selector, s: State, P: set<string>, id: string, c: int, need: int)
    requires Partitioned(t, s, P) && id in P && c in s.dockers[id].bind && sel.Calm()
    requires 0 <= need <= |ClusterAt(s.clusters, c).free|
    ensures var free := ClusterAt(s.clusters, c).free;
            var xs := PickFrom(t, sel, c, free, need);
            NoDup(xs) && |xs| == need && forall x :: x in xs ==> x in free
  {
    HeldIsOccupied(t, s, P, id, c);
    CorePlace(t, s, P, c);
    PickCpusCalm(t, sel, c, ClusterAt(s.clusters, c).free, need);
  }

  /** The multi-cluster split: it never asks the last cluster for more cores than it has free. */
  lemma {:induction false} FillAllKeeps(t: Topology, sel: Selector, s: State, P: set<string>, id: string, ids: seq<int>, need: int)
    requires Partitioned(t, s, P) && id in P && sel.Calm()
    requires |ids| > 0 && NoDup(ids)
    requires forall c :: c in ids ==> c in s.dockers[id].bind && ClusterAt(s.clusters, c).occupied == []
    requires (|ids| - 1) * t.Cores() < need <= |ids| * t.Cores()
    ensures var r := FillAll(t, sel, s, id, ids, need);
            && Partitioned(t, r, P) && OnlyPlacement(s, r, id) && r.nodes == s.nodes
            && r.dockers[id] == s.dockers[id].(cpuSet := r.dockers[id].cpuSet)
            && |r.dockers[id].cpuSet| == |s.dockers[id].cpuSet| + need
            && (forall k :: k !in s.dockers[id].bind ==> ClusterAt(r.clusters, k) == ClusterAt(s.clusters, k))
            && TookFree(s, r, id)
    decreases |ids|
  {
    hide TookFree;
    hide Partitioned;
    PlacedIn(t, s, P, id);
    hide Placed;
    var c := ids[0];
    var free := ClusterAt(s.clusters, c).free;
    assert c in ids;
    HeldIsOccupied(t, s, P, id, c);
    CorePlace(t, s, P, c);
    assert |free| == t.Cores();
    if |ids| == 1 {
      PickFromIsFree(t, sel, s, P, id, c, need);
      GrabAdds(t, s, P, id, c, PickFrom(t, sel, c, free, need));
    } else {
      var rest := ids[1..];
      GrabAdds(t, s, P, id, c, free);
      HeadAndTail(ids, []);
      assert (|ids| - 1) * t.Cores() == (|rest| - 1) * t.Cores() + t.Cores();
      assert |ids| * t.Cores() == |rest| * t.Cores() + t.Cores();
      FillAllKeeps(t, sel, Grab(s, id, c, free), P, id, rest, need - |free|);
      TookFreeTrans(s, Grab(s, id, c, free), FillAll(t, sel, Grab(s, id, c, free), id, rest, need - |free|), id);
    }
  }

  /** A node's free list is exactly its clusters that are not occupied. */
  lemma FreeIsUnoccupied(t: Topology, s: State, P: set<string>, n: int)
    requires Partitioned(t, s, P) && t.IsNode(n)
    ensures var nd := NodeAt(s.nodes, n);
            NoDup(nd.free) && forall c :: c in nd.free <==> c in t.ClusterIds(n) && c !in nd.occupied
  {
    var nd := NodeAt(s.nodes, n);
    assert ClustersSplit(t, s, n);
    PermNoDup(nd.free + nd.occupied, t.ClusterIds(n));
    ClusterIdsFacts(t, n);
    NoDupAppend(nd.free, nd.occupied);
    assert forall c :: c in nd.free + nd.occupied <==> c in nd.free || c in nd.occupied;
  }

  /** Claiming and filling m selected clusters. */
  lemma ClaimAndFill(t: Topology, sel: Selector, s: State, P: set<string>, id: string, n: int, m: nat, need: int)
    requires Partitioned(t, s, P) && id in P && sel.Calm() && s.dockers[id].memSet == [n]
    requires 0 < m <= |NodeAt(s.nodes, n).free| && (m - 1) * t.Cores() < need <= m * t.Cores()
    ensures var ids := PickClusters(t, sel, n, NodeAt(s.nodes, n).occupied, m);
            var r := FillAll(t, sel, ClaimAll(s, id, n, ids), id, ids, need);
            && Partitioned(t, r, P) && OnlyPlacement(s, r, id) && OnlyNode(s, r, n)
            && r.dockers[id].memSet == [n]
            && r.dockers[id].bind == s.dockers[id].bind + ids
            && |NodeAt(r.nodes, n).free| == |NodeAt(s.nodes, n).free| - m
            && |r.dockers[id].cpuSet| == |s.dockers[id].cpuSet| + need
            && OnlyHeld(s, r, id) && TookFree(s, r, id)
  {
    hide TookFree;
    var nd := NodeAt(s.nodes, n);
    var ids := PickClusters(t, sel, n, nd.occupied, m);
    assert Placed(t, s, s.dockers[id]) && t.IsNode(n);
    FreeIsUnoccupied(t, s, P, n);
    PickClustersFree(t, sel, n, nd.occupied, nd.free, m);
    ClaimAllKeeps(t, s, P, id, n, ids);
    var s1 := ClaimAll(s, id, n, ids);
    forall c | c in ids ensures c in s1.dockers[id].bind && ClusterAt(s1.clusters, c).occupied == [] {
      assert c in nd.free;
    }
    FillAllKeeps(t, sel, s1, P, id, ids, need);
    SameCoresTakeNone(s, s1, id);
    TookFreeTrans(s, s1, FillAll(t, sel, s1, id, ids, need), id);
  }

  /** What is asked of the last of the new clusters. */
  function LastAsked(t: Topology, s: State, d: Docker, need: int): int
    requires t.Uniform()
  {
    need - Spare(s, d) - (MoreClusters(t, s, d, need) - 1) * t.Cores()
  }

  /** Widening a cpuset by `need` CPUs, which takes `more` new clusters. */
  lemma WidenKeeps(t: Topology, sel: Selector, s: State, P: set<string>, id: string, need: nat, more: nat)
    requires Partitioned(t, s, P) && id in P && sel.Calm() && |s.dockers[id].bind| > 0
    requires more == MoreClusters(t, s, s.dockers[id], need) <= |NodeAt(s.nodes, HomeOf(s.dockers[id])).free|
    ensures var r, d := Widen(t, sel, s, id, need), s.dockers[id];
            var n := HomeOf(d);
            && Partitioned(t, r, P) && OnlyPlacement(s, r, id) && OnlyNode(s, r, n)
            && r.dockers[id].memSet == d.memSet && d.bind <= r.dockers[id].bind
            && |NodeAt(r.nodes, n).free| == |NodeAt(s.nodes, n).free| - more
            && |r.dockers[id].cpuSet| == |d.cpuSet| + need
            && OnlyHeld(s, r, id)
  {
    hide Partitioned;
    hide TookFree;
    hide FillAll;
    hide ClaimAll;
    hide PickFrom;
    hide PickClusters;
    PlacedIn(t, s, P, id);
    MoreIs(t, s, s.dockers[id], need);
    hide MoreClusters;
    var d := s.dockers[id];
    var c, n := Last(d.bind), HomeOf(d);
    var free := ClusterAt(s.clusters, c).free;
    HeldIsOccupied(t, s, P, id, c);
    CorePlace(t, s, P, c);
    if |free| >= need {
      PickFromIsFree(t, sel, s, P, id, c, need);
      GrabAdds(t, s, P, id, c, PickFrom(t, sel, c, free, need));
    } else {
      GrabAdds(t, s, P, id, c, free);
      assert d.memSet == [n];
      ClaimAndFill(t, sel, Grab(s, id, c, free), P, id, n, more, need - |free|);
    }
  }

  /** Everything added by widening was a free core, and the last new cluster is asked for no more cores than it has. */
  lemma WidenTakesFree(t: Topology, sel: Selector, s: State, P: set<string>, id: string, need: nat)
    requires Partitioned(t, s, P) && id in P && sel.Calm() && |s.dockers[id].bind| > 0
    requires MoreClusters(t, s, s.dockers[id], need) <= |NodeAt(s.nodes, HomeOf(s.dockers[id])).free|
    ensures TookFree(s, Widen(t, sel, s, id, need), id)
    ensures MoreClusters(t, s, s.dockers[id], need) > 0 ==> 0 < LastAsked(t, s, s.dockers[id], need) <= t.Cores()
  {
    hide Partitioned;
    hide TookFree;
    hide FillAll;
    hide ClaimAll;
    hide PickFrom;
    hide PickClusters;
    PlacedIn(t, s, P, id);
    var more := MoreClusters(t, s, s.dockers[id], need);
    MoreIs(t, s, s.dockers[id], need);
    hide MoreClusters;
    hide LastAsked;
    var d := s.dockers[id];
    var c, n := Last(d.bind), HomeOf(d);
    var free := ClusterAt(s.clusters, c).free;
    HeldIsOccupied(t, s, P, id, c);
    CorePlace(t, s, P, c);
    if |free| >= need {
      PickFromIsFree(t, sel, s, P, id, c, need);
      GrabAdds(t, s, P, id, c, PickFrom(t, sel, c, free, need));
    } else {
      GrabAdds(t, s, P, id, c, free);
      assert d.memSet == [n];
      ClaimAndFill(t, sel, Grab(s, id, c, free), P, id, n, more, need - |free|);
      TookFreeTrans(s, Grab(s, id, c, free), Widen(t, sel, s, id, need), id);
    }
  }

  lemma MoreIs(t: Topology, s: State, d: Docker, need: int)
    requires t.Uniform()
    ensures var rest, m := need - Spare(s, d), MoreClusters(t, s, d, need);
            && t.Cores() > 0 && (rest <= 0 ==> m == 0)
            && (rest > 0 ==> m > 0 && m == CeilDiv(rest, t.Cores()) && (m - 1) * t.Cores() < rest <= m * t.Cores()
                             && 0 < LastAsked(t, s, d, need) <= t.Cores())
  {
    PhysCoresFacts(t, 0);
    var rest := need - Spare(s, d);
    if rest > 0 {
      LastShare(rest, t.Cores());
      ShareBounds(rest, MoreClusters(t, s, d, need), t.Cores());
    }
  }

  lemma ShareBounds(rest: nat, m: nat, cores: nat)
    requires m >= 1 && 0 < rest - (m - 1) * cores <= cores
    ensures (m - 1) * cores < rest <= m * cores
  {
    assert m * cores == (m - 1) * cores + cores;
  }

  /** A container that still owes CPUs and whose newest cluster is spent holds an older one. */
  lemma SpentIsNotLast(s: State, d: Docker)
    requires |d.bind| > 0 && |d.cpuSet| > 0 && multiset(d.cpuSet) == OccBag(s.clusters, d.bind)
    requires ClusterAt(s.clusters, Last(d.bind)).occupied == []
    ensures |Init(d.bind)| > 0
  {
    assert |multiset(d.cpuSet)| == |d.cpuSet|;
    assert OccBag(s.clusters, d.bind) == OccBag(s.clusters, Init(d.bind));
  }

  /** One turn of the give-back loop. */
  lemma GiveBackTurn(t: Topology, s: State, P: set<string>, id: string)
    requires Partitioned(t, s, P) && id in P && |s.dockers[id].cpuSet| > 0 && |s.dockers[id].bind| > 0
    ensures var d := s.dockers[id];
            var spent := |ClusterAt(s.clusters, Last(d.bind)).occupied| == 0;
            var r := if spent then Release(s, id) else Drop(s, id);
            && Partitioned(t, r, P) && OnlyPlacement(s, r, id) && OnlyNode(s, r, HomeOf(d))
            && r.dockers[id].memSet == d.memSet && r.dockers[id].bind <= d.bind && |r.dockers[id].bind| > 0
            && |NodeAt(r.nodes, HomeOf(d)).free| >= |NodeAt(s.nodes, HomeOf(d)).free|
            && |r.dockers[id].cpuSet| == |d.cpuSet| - (if spent then 0 else 1)
  {
    hide Partitioned;
    PlacedIn(t, s, P, id);
    var d := s.dockers[id];
    if |ClusterAt(s.clusters, Last(d.bind)).occupied| == 0 {
      ReleaseKeeps(t, s, P, id);
      SpentIsNotLast(s, d);
    } else {
      DropKeeps(t, s, P, id);
    }
  }

  /** Giving back `need` held CPUs always finds one to give: the cluster list is never emptied. */
  lemma {:induction false} GiveBackKeeps(t: Topology, s: State, P: set<string>, id: string, need: nat)
    requires Partitioned(t, s, P) && id in P && need <= |s.dockers[id].cpuSet| && |s.dockers[id].bind| > 0
    ensures var r := GiveBack(s, id, need);
            && Partitioned(t, r, P) && OnlyPlacement(s, r, id) && OnlyNode(s, r, HomeOf(s.dockers[id]))
            && r.dockers[id].memSet == s.dockers[id].memSet
            && r.dockers[id].bind <= s.dockers[id].bind && |r.dockers[id].bind| > 0
            && |NodeAt(r.nodes, HomeOf(s.dockers[id])).free| >= |NodeAt(s.nodes, HomeOf(s.dockers[id])).free|
            && |r.dockers[id].cpuSet| == |s.dockers[id].cpuSet| - need
    decreases need + |s.dockers[id].bind|
  {
    hide Partitioned;
    PlacedIn(t, s, P, id);
    hide Placed;
    if need > 0 {
      var d := s.dockers[id];
      var spent := |ClusterAt(s.clusters, Last(d.bind)).occupied| == 0;
      GiveBackTurn(t, s, P, id);
      var m := if spent then Release(s, id) else Drop(s, id);
      GiveBackKeeps(t, m, P, id, if spent then need else need - 1);
      OnlyPlacementTrans(s, m, GiveBack(s, id, need), id);
    }
  }

  /** Binding a new container to m clusters of node n. */
  lemma BindToKeeps(t: Topology, sel: Selector, s: State, P: set<string>, id: string, n: int, m: nat)
    requires Partitioned(t, s, P) && id in s.dockers && id !in P && t.IsNode(n) && sel.Calm()
    requires s.dockers[id].initial > 0.0
    requires m == CeilDiv(Ceil(s.dockers[id].initial), t.Cores()) && m <= |NodeAt(s.nodes, n).free|
    ensures var r := BindTo(t, sel, s, id, n, m);
            && Partitioned(t, r, P + {id}) && OnlyPlacement(s, r, id) && OnlyNode(s, r, n)
            && r.dockers[id].memSet == [n] && |r.dockers[id].bind| == m > 0
            && |NodeAt(r.nodes, n).free| == |NodeAt(s.nodes, n).free| - m
            && |r.dockers[id].cpuSet| == Ceil(s.dockers[id].initial)
  {
    hide Partitioned;
    PlacedIn(t, s, P, id);
    var need := Ceil(s.dockers[id].initial);
    assert need > 0;
    EnrollKeeps(t, s, P, id, n);
    assert s.dockers[id].bind == [];
    PhysCoresFacts(t, 0);
    LastShare(need, t.Cores());
    ShareBounds(need, m, t.Cores());
    ClaimAndFill(t, sel, Enroll(s, id, n), P + {id}, id, n, m, need);
  }
}
