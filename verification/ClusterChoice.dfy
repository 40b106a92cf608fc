/**
 * Which clusters and cores the allocator takes and gives back: the least used ones are taken first, the newest ones go
 * back first.
 */
module ClusterChoice {
  import opened Seqs
  import opened Topologies
  import opened Ceilings
  import opened ClusterSelection
  import opened ClusterSpec
  import opened ClusterInvariant
  import opened ClusterSteps
  import opened ClusterRounds

  // ---------- Repeated selection ----------

  /** No free CPU that is left over is less loaded than a chosen one. */
  lemma {:induction false} PickCpusLeast(t: Topology, sel: Selector, cluster: int, avail: set<int>, m: nat)
    requires InCluster(t, cluster, avail) && sel.Calm() && m <= |avail|
    ensures var p := PickCpus(t, sel, cluster, avail, m);
            forall x, y :: x in p && y in avail && y !in p ==> sel.Load(x) <= sel.Load(y)
    decreases m
  {
    if m > 0 {
      var x := NextCpu(t, sel, cluster, avail);
      NextCpuMeaning(t, sel, cluster, avail);
      assert Below100(sel, avail) == avail != {};
      PickCpusLeast(t, sel, cluster, avail - {x}, m - 1);
      var rest := PickCpus(t, sel, cluster, avail - {x}, m - 1);
      assert forall z :: z in [x] + rest <==> z == x || z in rest;
      hide NextCpu;
      hide Below100;
    }
  }

  /** No free cluster that is left over has fewer cache accesses than a chosen one. */
  lemma {:induction false} PickClustersLeast(t: Topology, sel: Selector, node: int, occupied: seq<int>, free: seq<int>, m: nat)
    requires sel.Calm() && NoDup(free) && m <= |free|
    requires forall c :: c in t.ClusterIds(node) && c !in occupied ==> c in free
    requires forall c :: c in free ==> c in t.ClusterIds(node) && c !in occupied
    ensures var p := PickClusters(t, sel, node, occupied, m);
            forall c, k :: c in p && k in free && k !in p ==> sel.Heat(c) <= sel.Heat(k)
    decreases m
  {
    if m > 0 {
      var c := NextCluster(t, sel, node, occupied);
      NextClusterMeaning(t, sel, node, occupied);
      NextClusterIsFree(t, sel, node, occupied, free);
      hide NextCluster;
      WithoutBag(free, [c]);
      assert forall k :: k in occupied + [c] <==> k in occupied || k == c;
      PickClustersLeast(t, sel, node, occupied + [c], Without(free, [c]), m - 1);
      var rest := PickClusters(t, sel, node, occupied + [c], m - 1);
      assert forall k :: k in [c] + rest <==> k == c || k in rest;
    }
  }

  // ---------- Cores taken ----------

  /** No core has become free, and no core taken is more loaded than one of its cluster that is left free. */
  ghost predicate LeastTaken(sel: Selector, s: State, r: State) {
    && (forall c, x :: x in ClusterAt(r.clusters, c).free ==> x in ClusterAt(s.clusters, c).free)
    && forall c, x, y :: x in ClusterAt(s.clusters, c).free && x !in ClusterAt(r.clusters, c).free && y in ClusterAt(r.clusters, c).free ==>
         sel.Load(x) <= sel.Load(y)
  }

  lemma FirstIsMember(xs: seq<int>)
    requires |xs| > 0
    ensures xs[0] in xs
  {
  }

  lemma GrabAllLeast(sel: Selector, s: State, id: string, c: int)
    requires id in s.dockers
    ensures LeastTaken(sel, s, Grab(s, id, c, ClusterAt(s.clusters, c).free))
    ensures ClusterAt(Grab(s, id, c, ClusterAt(s.clusters, c).free).clusters, c).free == []
  {
    var free := ClusterAt(s.clusters, c).free;
    var left := Without(free, free);
    if |left| > 0 {
      FirstIsMember(left);
    }
  }

  lemma GrabPickedLeast(t: Topology, sel: Selector, s: State, P: set<string>, id: string, c: int, need: nat)
    requires Partitioned(t, s, P) && id in P && c in s.dockers[id].bind && sel.Calm()
    requires need <= |ClusterAt(s.clusters, c).free| && id in s.dockers
    ensures LeastTaken(sel, s, Grab(s, id, c, PickFrom(t, sel, c, ClusterAt(s.clusters, c).free, need)))
  {
    var free := ClusterAt(s.clusters, c).free;
    HeldIsOccupied(t, s, P, id, c);
    CorePlace(t, s, P, c);
    hide Partitioned;
    SetOfSize(free);
    PickCpusLeast(t, sel, c, SetOf(free), need);
    hide PickCpus;
  }

  /** Taking everything of one cluster and then cores of others. */
  lemma LeastThen(sel: Selector, s: State, m: State, r: State, c: int)
    requires LeastTaken(sel, m, r) && ClusterAt(m.clusters, c).free == []
    requires forall k :: k != c ==> ClusterAt(m.clusters, k) == ClusterAt(s.clusters, k)
    ensures LeastTaken(sel, s, r)
  {
    forall k, x | x in ClusterAt(r.clusters, k).free ensures x in ClusterAt(s.clusters, k).free {
      assert x in ClusterAt(m.clusters, k).free;
    }
  }

  lemma {:induction false} FillAllLeast(t: Topology, sel: Selector, s: State, P: set<string>, id: string, ids: seq<int>, need: int)
    requires Partitioned(t, s, P) && id in P && sel.Calm() && id in s.dockers
    requires |ids| > 0 && NoDup(ids)
    requires forall c :: c in ids ==> c in s.dockers[id].bind && ClusterAt(s.clusters, c).occupied == []
    requires (|ids| - 1) * t.Cores() < need <= |ids| * t.Cores()
    ensures LeastTaken(sel, s, FillAll(t, sel, s, id, ids, need))
    decreases |ids|
  {
    hide TookFree;
    hide Partitioned;
    hide LeastTaken;
    var c := ids[0];
    var free := ClusterAt(s.clusters, c).free;
    assert c in ids;
    HeldIsOccupied(t, s, P, id, c);
    CorePlace(t, s, P, c);
    if |ids| == 1 {
      GrabPickedLeast(t, sel, s, P, id, c, need);
    } else {
      var rest := ids[1..];
      GrabAdds(t, s, P, id, c, free);
      GrabAllLeast(sel, s, id, c);
      HeadAndTail(ids, []);
      assert (|ids| - 1) * t.Cores() == (|rest| - 1) * t.Cores() + t.Cores();
      assert |ids| * t.Cores() == |rest| * t.Cores() + t.Cores();
      FillAllLeast(t, sel, Grab(s, id, c, free), P, id, rest, need - |free|);
      LeastThen(sel, s, Grab(s, id, c, free), FillAll(t, sel, Grab(s, id, c, free), id, rest, need - |free|), c);
    }
  }

  // ---------- Clusters taken ----------

  /** No cluster of node n taken has more cache accesses than one that is left free. */
  ghost predicate LeastClaimed(sel: Selector, s: State, r: State, n: int) {
    && (forall c :: c in NodeAt(r.nodes, n).free ==> c in NodeAt(s.nodes, n).free)
    && forall c, k :: c in NodeAt(s.nodes, n).free && c !in NodeAt(r.nodes, n).free && k in NodeAt(r.nodes, n).free ==> sel.Heat(c) <= sel.Heat(k)
  }

  lemma {:induction false} ClaimedFree(s: State, id: string, n: int, ids: seq<int>)
    requires id in s.dockers
    ensures forall k :: k in NodeAt(ClaimAll(s, id, n, ids).nodes, n).free <==> k in NodeAt(s.nodes, n).free && k !in ids
    decreases |ids|
  {
    if |ids| > 0 {
      var m := Claim(s, id, n, ids[0]);
      ClaimedFree(m, id, n, ids[1..]);
      assert ids == [ids[0]] + ids[1..];
      assert forall k :: k in ids <==> k == ids[0] || k in ids[1..];
    }
  }

  lemma ClaimedLeast(t: Topology, sel: Selector, s: State, P: set<string>, id: string, n: int, m: nat)
    requires Partitioned(t, s, P) && id in s.dockers && t.IsNode(n) && sel.Calm() && m <= |NodeAt(s.nodes, n).free|
    ensures LeastClaimed(sel, s, ClaimAll(s, id, n, PickClusters(t, sel, n, NodeAt(s.nodes, n).occupied, m)), n)
  {
    var nd := NodeAt(s.nodes, n);
    FreeIsUnoccupied(t, s, P, n);
    hide Partitioned;
    var ids := PickClusters(t, sel, n, nd.occupied, m);
    PickClustersLeast(t, sel, n, nd.occupied, nd.free, m);
    ClaimedFree(s, id, n, ids);
    hide PickClusters;
    hide ClaimAll;
  }

  // ---------- The operations ----------

  /** What an operation takes: the least loaded cores of a cluster, and the least accessed clusters of the node. */
  ghost predicate LeastUsed(sel: Selector, s: State, r: State, n: int) {
    LeastTaken(sel, s, r) && LeastClaimed(sel, s, r, n)
  }

  lemma ClaimAndFillLeast(t: Topology, sel: Selector, s: State, P: set<string>, id: string, n: int, m: nat, need: int)
    requires Partitioned(t, s, P) && id in P && sel.Calm() && id in s.dockers && s.dockers[id].memSet == [n]
    requires 0 < m <= |NodeAt(s.nodes, n).free| && (m - 1) * t.Cores() < need <= m * t.Cores()
    ensures var ids := PickClusters(t, sel, n, NodeAt(s.nodes, n).occupied, m);
            LeastUsed(sel, s, FillAll(t, sel, ClaimAll(s, id, n, ids), id, ids, need), n)
  {
    hide TookFree;
    hide LeastTaken;
    hide LeastClaimed;
    var nd := NodeAt(s.nodes, n);
    var ids := PickClusters(t, sel, n, nd.occupied, m);
    assert Placed(t, s, s.dockers[id]) && t.IsNode(n);
    FreeIsUnoccupied(t, s, P, n);
    PickClustersFree(t, sel, n, nd.occupied, nd.free, m);
    ClaimedLeast(t, sel, s, P, id, n, m);
    ClaimAllKeeps(t, s, P, id, n, ids);
    var s1 := ClaimAll(s, id, n, ids);
    forall c | c in ids ensures c in s1.dockers[id].bind && ClusterAt(s1.clusters, c).occupied == [] {
      assert c in nd.free;
    }
    hide Partitioned;
    FillAllLeast(t, sel, s1, P, id, ids, need);
    FillAllKeeps(t, sel, s1, P, id, ids, need);
    ClaimedThenFilled(sel, s, s1, FillAll(t, sel, s1, id, ids, need), n);
  }

  lemma ClaimedThenFilled(sel: Selector, s: State, m: State, r: State, n: int)
    requires LeastTaken(sel, m, r) && m.clusters == s.clusters && LeastClaimed(sel, s, m, n) && r.nodes == m.nodes
    ensures LeastUsed(sel, s, r, n)
  {
  }

  lemma SameNodes(sel: Selector, s: State, m: State, r: State, n: int)
    requires LeastClaimed(sel, m, r, n) && m.nodes == s.nodes
    ensures LeastClaimed(sel, s, r, n)
  {
  }

  lemma NoneClaimed(sel: Selector, s: State, r: State, n: int)
    ensures r.nodes == s.nodes ==> LeastClaimed(sel, s, r, n)
  {
  }

  /** All free cores of a held cluster, and then those of m new clusters. */
  lemma GrabThenFillLeast(t: Topology, sel: Selector, s: State, P: set<string>, id: string, c: int, n: int, m: nat, need: int)
    requires Partitioned(t, s, P) && id in P && sel.Calm() && id in s.dockers && s.dockers[id].memSet == [n] && c in s.dockers[id].bind
    requires 0 < m <= |NodeAt(s.nodes, n).free| && (m - 1) * t.Cores() < need <= m * t.Cores()
    ensures var g := Grab(s, id, c, ClusterAt(s.clusters, c).free);
            var ids := PickClusters(t, sel, n, NodeAt(s.nodes, n).occupied, m);
            LeastUsed(sel, s, FillAll(t, sel, ClaimAll(g, id, n, ids), id, ids, need), n)
  {
    hide Partitioned;
    hide TookFree;
    hide FillAll;
    hide ClaimAll;
    hide PickClusters;
    var free := ClusterAt(s.clusters, c).free;
    HeldIsOccupied(t, s, P, id, c);
    CorePlace(t, s, P, c);
    GrabAdds(t, s, P, id, c, free);
    GrabAllLeast(sel, s, id, c);
    var g := Grab(s, id, c, free);
    hide LeastTaken;
    hide LeastClaimed;
    ClaimAndFillLeast(t, sel, g, P, id, n, m, need);
    var ids := PickClusters(t, sel, n, NodeAt(s.nodes, n).occupied, m);
    var r := FillAll(t, sel, ClaimAll(g, id, n, ids), id, ids, need);
    LeastThen(sel, s, g, r, c);
    SameNodes(sel, s, g, r, n);
  }

  /** An addition takes the least loaded cores and the least accessed clusters. */
  lemma WidenLeast(t: Topology, sel: Selector, s: State, P: set<string>, id: string, need: nat)
    requires Partitioned(t, s, P) && id in P && sel.Calm() && id in s.dockers && |s.dockers[id].bind| > 0
    requires MoreClusters(t, s, s.dockers[id], need) <= |NodeAt(s.nodes, HomeOf(s.dockers[id])).free|
    ensures LeastUsed(sel, s, Widen(t, sel, s, id, need), HomeOf(s.dockers[id]))
  {
    hide Partitioned;
    hide LeastTaken;
    hide LeastClaimed;
    hide FillAll;
    hide ClaimAll;
    hide PickClusters;
    PlacedIn(t, s, P, id);
    MoreIs(t, s, s.dockers[id], need);
    var more := MoreClusters(t, s, s.dockers[id], need);
    hide MoreClusters;
    hide LastAsked;
    var d := s.dockers[id];
    var c, n := Last(d.bind), HomeOf(d);
    var free := ClusterAt(s.clusters, c).free;
    if |free| >= need {
      GrabPickedLeast(t, sel, s, P, id, c, need);
      NoneClaimed(sel, s, Widen(t, sel, s, id, need), n);
    } else {
      assert d.memSet == [n];
      GrabThenFillLeast(t, sel, s, P, id, c, n, more, need - |free|);
    }
  }

  /** So does binding. */
  lemma BindToLeast(t: Topology, sel: Selector, s: State, P: set<string>, id: string, n: int, m: nat)
    requires Partitioned(t, s, P) && id in s.dockers && id !in P && t.IsNode(n) && sel.Calm() && s.dockers[id].initial > 0.0
    requires m == CeilDiv(Ceil(s.dockers[id].initial), t.Cores()) && m <= |NodeAt(s.nodes, n).free|
    ensures LeastUsed(sel, s, BindTo(t, sel, s, id, n, m), n)
  {
    hide Partitioned;
    hide LeastTaken;
    PlacedIn(t, s, P, id);
    var need := Ceil(s.dockers[id].initial);
    EnrollKeeps(t, s, P, id, n);
    PhysCoresFacts(t, 0);
    LastShare(need, t.Cores());
    ShareBounds(need, m, t.Cores());
    ClaimAndFillLeast(t, sel, Enroll(s, id, n), P + {id}, id, n, m, need);
    SameTables(sel, s, Enroll(s, id, n), BindTo(t, sel, s, id, n, m), n);
  }

  lemma SameTables(sel: Selector, s: State, m: State, r: State, n: int)
    requires LeastUsed(sel, m, r, n) && m.clusters == s.clusters && m.nodes == s.nodes
    ensures LeastUsed(sel, s, r, n)
  {
  }

  // ---------- Giving back ----------

  /** The cores last taken go back first, and only the newest cluster that remains has given any. */
  lemma {:induction false} GiveBackNewest(t: Topology, s: State, P: set<string>, id: string, need: nat)
    requires Partitioned(t, s, P) && id in P && id in s.dockers && need <= |s.dockers[id].cpuSet| && |s.dockers[id].bind| > 0
    ensures var r := GiveBack(s, id, need);
            && |r.dockers[id].bind| > 0 && r.dockers[id].bind <= s.dockers[id].bind
            && (forall c :: ClusterAt(r.clusters, c).occupied <= ClusterAt(s.clusters, c).occupied)
            && forall c :: c in Init(r.dockers[id].bind) ==> ClusterAt(r.clusters, c) == ClusterAt(s.clusters, c)
    decreases need + |s.dockers[id].bind|
  {
    hide Partitioned;
    GiveBackKeeps(t, s, P, id, need);
    PlacedIn(t, s, P, id);
    if need > 0 {
      var d := s.dockers[id];
      var spent := |ClusterAt(s.clusters, Last(d.bind)).occupied| == 0;
      GiveBackTurn(t, s, P, id);
      var m := if spent then Release(s, id) else Drop(s, id);
      var r := GiveBack(s, id, need);
      GiveBackNewest(t, m, P, id, if spent then need else need - 1);
      assert r == GiveBack(m, id, if spent then need else need - 1);
      hide GiveBack;
      forall c ensures ClusterAt(r.clusters, c).occupied <= ClusterAt(s.clusters, c).occupied {
        assert ClusterAt(m.clusters, c).occupied <= ClusterAt(s.clusters, c).occupied;
      }
      forall c | c in Init(r.dockers[id].bind) ensures c != Last(d.bind) {
        var i :| 0 <= i < |r.dockers[id].bind| - 1 && r.dockers[id].bind[i] == c;
        assert d.bind[i] == c;
      }
    }
  }

  // ---------- Start-up ----------

  /** At start-up the first hardware threads of every cluster are free, the others set aside, and all clusters free. */
  lemma StartMeaning(t: Topology, c: int, n: int, x: int)
    requires t.Uniform()
    ensures var step, inside := if t.smt then 2 else 1, 0 <= c < t.nodes * t.perNode && c * t.size <= x < c * t.size + t.size;
            && (x in ClusterAt(Start(t).clusters, c).free <==> inside && (x - c * t.size) % step == 0)
            && (x in ClusterAt(Start(t).clusters, c).logical <==> inside && (x - c * t.size) % step != 0)
            && ClusterAt(Start(t).clusters, c).occupied == []
    ensures c in NodeAt(Start(t).nodes, n).free <==> 0 <= n < t.nodes && n * t.perNode <= c < n * t.perNode + t.perNode
    ensures NodeAt(Start(t).nodes, n).occupied == [] && Start(t).dockers == map[]
  {
    var cl := ClusterAt(Start(t).clusters, c);
    if 0 <= c < t.nodes * t.perNode {
      assert cl == Cluster(Siblings(t, c), t.PhysCores(c), []);
      PhysIn(t, c, x);
      assert x in Block(t, c) <==> c * t.size <= x < c * t.size + t.size by {
        if c * t.size <= x < c * t.size + t.size {
          assert Block(t, c)[x - c * t.size] == x;
        }
      }
    }
    if 0 <= n < t.nodes {
      ClusterIdsFacts(t, n);
    }
    hide Block;
  }

  lemma PhysIn(t: Topology, c: int, x: int)
    requires t.Uniform()
    ensures x in t.PhysCores(c) <==> c * t.size <= x < c * t.size + t.size && (x - c * t.size) % (if t.smt then 2 else 1) == 0
  {
    PhysCoresFacts(t, c);
    var cores := t.PhysCores(c);
    if c * t.size <= x < c * t.size + t.size && (x - c * t.size) % t.Sep() == 0 {
      var j := (x - c * t.size) / t.Sep();
      assert cores[j] == x;
    }
  }
}
