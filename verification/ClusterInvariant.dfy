/** What every move of the allocator keeps: cores and clusters are partitioned among their owners. */
module ClusterInvariant {
  import opened Seqs
  import opened Topologies
  import opened Ceilings
  import opened ClusterSelection
  import opened ClusterSpec

  /** The cores of a list of clusters that are in use, with multiplicities. */
  ghost function OccBag(clusters: map<int, Cluster>, bind: seq<int>): multiset<int> {
    if |bind| == 0 then multiset{}
    else OccBag(clusters, Init(bind)) + multiset(ClusterAt(clusters, Last(bind)).occupied)
  }

  ghost predicate Holds(s: State, id: string, c: int) {
    id in s.dockers && c in s.dockers[id].bind
  }

  /** Free and occupied cores together are a permutation of the cluster's physical cores. */
  ghost predicate CoresSplit(t: Topology, s: State, c: int) {
    var cl := ClusterAt(s.clusters, c);
    c in s.clusters && multiset(cl.free) + multiset(cl.occupied) == multiset(t.PhysCores(c))
  }

  /** Free and occupied clusters together are a permutation of the node's clusters. */
  ghost predicate ClustersSplit(t: Topology, s: State, n: int) {
    var nd := NodeAt(s.nodes, n);
    n in s.nodes && multiset(nd.free) + multiset(nd.occupied) == multiset(t.ClusterIds(n))
  }

  /** A placed container lives on one node, holds occupied clusters of it, and its cpuset is their occupied cores. */
  ghost predicate Placed(t: Topology, s: State, d: Docker) {
    && |d.memSet| == 1 && t.IsNode(d.memSet[0])
    && NoDup(d.bind)
    && (forall c :: c in d.bind ==> c in NodeAt(s.nodes, d.memSet[0]).occupied)
    && multiset(d.cpuSet) == OccBag(s.clusters, d.bind)
  }

  ghost predicate CoresOk(t: Topology, s: State) {
    forall c :: t.IsCluster(c) ==> CoresSplit(t, s, c)
  }

  ghost predicate NodesOk(t: Topology, s: State) {
    forall n :: t.IsNode(n) ==> ClustersSplit(t, s, n)
  }

  /** No core of a free cluster is in use. */
  ghost predicate FreeUnused(t: Topology, s: State) {
    forall n, c :: t.IsNode(n) && c in NodeAt(s.nodes, n).free ==> ClusterAt(s.clusters, c).occupied == []
  }

  ghost predicate AllPlaced(t: Topology, s: State, P: set<string>) {
    && P <= s.dockers.Keys
    && (forall i :: i in P ==> Placed(t, s, s.dockers[i]))
    && (forall i :: i in s.dockers && i !in P ==> s.dockers[i].bind == [])
  }

  /** Every occupied cluster has exactly one owner. */
  ghost predicate Owned(t: Topology, s: State, P: set<string>) {
    && (forall i, j, c :: Holds(s, i, c) && Holds(s, j, c) ==> i == j)
    && (forall n, c :: t.IsNode(n) && c in NodeAt(s.nodes, n).occupied ==> exists i :: i in P && Holds(s, i, c))
  }

  /** The partition invariant; P are the containers the allocator has placed. */
  ghost predicate Partitioned(t: Topology, s: State, P: set<string>) {
    t.Uniform() && CoresOk(t, s) && NodesOk(t, s) && FreeUnused(t, s) && AllPlaced(t, s, P) && Owned(t, s, P)
  }

  /** The parts of the invariant about one container, for proofs that hide the rest. */
  lemma PlacedIn(t: Topology, s: State, P: set<string>, id: string)
    requires Partitioned(t, s, P)
    ensures t.Uniform() && t.Cores() > 0 && P <= s.dockers.Keys
    ensures id in P ==> Placed(t, s, s.dockers[id])
    ensures id in s.dockers && id !in P ==> s.dockers[id].bind == []
  {
    PhysCoresFacts(t, 0);
  }

  // ---------- Bags of occupied cores ----------

  lemma {:induction false} OccBagSame(a: map<int, Cluster>, b: map<int, Cluster>, bind: seq<int>)
    requires forall c :: c in bind ==> ClusterAt(a, c).occupied == ClusterAt(b, c).occupied
    ensures OccBag(a, bind) == OccBag(b, bind)
  {
    if |bind| > 0 {
      OccBagSame(a, b, Init(bind));
    }
  }

  /** Changing one held cluster changes the bag by the difference of its occupied cores. */
  lemma {:induction false} OccBagChange(a: map<int, Cluster>, b: map<int, Cluster>, bind: seq<int>, k: int)
    requires NoDup(bind) && k in bind
    requires forall c :: c in bind && c != k ==> ClusterAt(a, c).occupied == ClusterAt(b, c).occupied
    ensures OccBag(b, bind) + multiset(ClusterAt(a, k).occupied) == OccBag(a, bind) + multiset(ClusterAt(b, k).occupied)
  {
    var z := Last(bind);
    if z == k {
      OccBagSame(a, b, Init(bind));
    } else {
      InitLast(bind);
      OccBagChange(a, b, Init(bind), k);
      Shift(OccBag(b, Init(bind)), multiset(ClusterAt(a, k).occupied), OccBag(a, Init(bind)),
            multiset(ClusterAt(b, k).occupied), multiset(ClusterAt(a, z).occupied));
    }
  }

  lemma Shift(b: multiset<int>, x: multiset<int>, a: multiset<int>, y: multiset<int>, o: multiset<int>)
    requires b + x == a + y
    ensures b + o + x == a + o + y
  {
    assert b + o + x == (b + x) + o;
    assert a + o + y == (a + y) + o;
  }

  lemma OccBagAppend(a: map<int, Cluster>, bind: seq<int>, c: int)
    ensures OccBag(a, bind + [c]) == OccBag(a, bind) + multiset(ClusterAt(a, c).occupied)
  {
    assert Init(bind + [c]) == bind;
  }

  lemma {:induction false} OccBagMember(a: map<int, Cluster>, bind: seq<int>, x: int)
    ensures x in OccBag(a, bind) <==> exists c :: c in bind && x in ClusterAt(a, c).occupied
  {
    if |bind| > 0 {
      OccBagMember(a, Init(bind), x);
      InitLast(bind);
      assert x in multiset(ClusterAt(a, Last(bind)).occupied) <==> x in ClusterAt(a, Last(bind)).occupied;
      if c :| c in bind && x in ClusterAt(a, c).occupied {
        assert c == Last(bind) || c in Init(bind);
      }
    }
  }

  // ---------- Consequences of the invariant ----------

  /** A cluster occupied on node n is free on no node and occupied on no other node. */
  lemma OccupiedElsewhere(t: Topology, s: State, P: set<string>, n: int, c: int)
    requires Partitioned(t, s, P) && t.IsNode(n) && c in NodeAt(s.nodes, n).occupied
    ensures c in t.ClusterIds(n) && t.IsCluster(c)
    ensures forall m :: t.IsNode(m) ==> c !in NodeAt(s.nodes, m).free
    ensures forall m :: t.IsNode(m) && m != n ==> c !in NodeAt(s.nodes, m).occupied
  {
    ClusterPlace(t, s, P, n, c);
    forall m | t.IsNode(m)
      ensures c !in NodeAt(s.nodes, m).free
      ensures m != n ==> c !in NodeAt(s.nodes, m).occupied
    {
      if c in NodeAt(s.nodes, m).free || c in NodeAt(s.nodes, m).occupied {
        ClusterPlace(t, s, P, m, c);
        ClusterIdsFacts(t, n);
        ClusterIdsFacts(t, m);
        BlocksApart(n, m, t.perNode, c);
      }
    }
  }

  /** Each cluster of a node's lists is one of the node's, and in exactly one of the lists. */
  lemma ClusterPlace(t: Topology, s: State, P: set<string>, n: int, c: int)
    requires Partitioned(t, s, P) && t.IsNode(n)
    requires c in NodeAt(s.nodes, n).occupied || c in NodeAt(s.nodes, n).free
    ensures c in t.ClusterIds(n) && t.IsCluster(c)
    ensures !(c in NodeAt(s.nodes, n).occupied && c in NodeAt(s.nodes, n).free)
    ensures NoDup(NodeAt(s.nodes, n).occupied) && NoDup(NodeAt(s.nodes, n).free)
  {
    var nd := NodeAt(s.nodes, n);
    assert ClustersSplit(t, s, n);
    PermNoDup(nd.free + nd.occupied, t.ClusterIds(n));
    ClusterIdsFacts(t, n);
    NoDupAppend(nd.free, nd.occupied);
    assert c in nd.free + nd.occupied;
    NodeOfCluster(t, n, c);
  }

  /** Free and occupied cores of a cluster are distinct and lie in its block of CPUs. */
  lemma CorePlace(t: Topology, s: State, P: set<string>, c: int)
    requires Partitioned(t, s, P) && t.IsCluster(c)
    ensures var cl := ClusterAt(s.clusters, c);
            && NoDup(cl.free) && NoDup(cl.occupied)
            && (forall x :: x in cl.free ==> x !in cl.occupied)
            && (forall x :: x in cl.free || x in cl.occupied ==> c * t.size <= x < c * t.size + t.size)
            && |cl.free| + |cl.occupied| == t.Cores()
  {
    var cl := ClusterAt(s.clusters, c);
    assert CoresSplit(t, s, c);
    PermNoDup(cl.free + cl.occupied, t.PhysCores(c));
    PhysCoresFacts(t, c);
    NoDupAppend(cl.free, cl.occupied);
    assert forall x :: x in cl.free || x in cl.occupied ==> x in cl.free + cl.occupied;
  }

  // ---------- The moves keep the invariant ----------

  /** r is s with the cores of cluster c exchanged between free and occupied, id's cpuset following along. */
  ghost predicate CoreExchange(s: State, r: State, id: string, c: int) {
    && id in s.dockers && r.dockers.Keys == s.dockers.Keys
    && r.nodes == s.nodes
    && r.dockers == s.dockers[id := r.dockers[id]]
    && r.clusters == s.clusters[c := ClusterAt(r.clusters, c)]
    && r.dockers[id].bind == s.dockers[id].bind && r.dockers[id].memSet == s.dockers[id].memSet
    && multiset(ClusterAt(r.clusters, c).free) + multiset(ClusterAt(r.clusters, c).occupied)
       == multiset(ClusterAt(s.clusters, c).free) + multiset(ClusterAt(s.clusters, c).occupied)
    && multiset(r.dockers[id].cpuSet) + multiset(ClusterAt(s.clusters, c).occupied)
       == multiset(s.dockers[id].cpuSet) + multiset(ClusterAt(r.clusters, c).occupied)
  }

  lemma ExchangeKeeps(t: Topology, s: State, r: State, P: set<string>, id: string, c: int)
    requires Partitioned(t, s, P) && id in P && c in s.dockers[id].bind
    requires CoreExchange(s, r, id, c)
    ensures Partitioned(t, r, P)
  {
    HeldIsOccupied(t, s, P, id, c);
    ExchangeKeepsSplits(t, s, r, id, c);
    forall i | i in P ensures Placed(t, r, r.dockers[i]) {
      PlacedAfterExchange(t, s, r, P, id, c, i);
    }
    assert forall i, k :: Holds(r, i, k) <==> Holds(s, i, k);
    OwnedSame(t, s, r, P);
  }

  lemma ExchangeKeepsSplits(t: Topology, s: State, r: State, id: string, c: int)
    requires CoresOk(t, s) && NodesOk(t, s) && FreeUnused(t, s) && CoreExchange(s, r, id, c)
    requires forall m :: t.IsNode(m) ==> c !in NodeAt(s.nodes, m).free
    ensures CoresOk(t, r) && NodesOk(t, r) && FreeUnused(t, r)
  {
    forall k | t.IsCluster(k) ensures CoresSplit(t, r, k) {
      assert CoresSplit(t, s, k);
    }
    forall k | t.IsNode(k) ensures ClustersSplit(t, r, k) {
      assert ClustersSplit(t, s, k);
    }
    forall n, k | t.IsNode(n) && k in NodeAt(r.nodes, n).free ensures ClusterAt(r.clusters, k).occupied == [] {
      assert k in NodeAt(s.nodes, n).free;
      assert ClusterAt(s.clusters, k).occupied == [];
      assert k != c;
      assert ClusterAt(r.clusters, k) == ClusterAt(s.clusters, k);
    }
  }

  /** A held cluster is occupied on the holder's node only and free nowhere. */
  lemma HeldIsOccupied(t: Topology, s: State, P: set<string>, id: string, c: int)
    requires Partitioned(t, s, P) && id in P && c in s.dockers[id].bind
    ensures |s.dockers[id].memSet| == 1 && t.IsNode(s.dockers[id].memSet[0])
    ensures c in NodeAt(s.nodes, s.dockers[id].memSet[0]).occupied
    ensures c in t.ClusterIds(s.dockers[id].memSet[0]) && t.IsCluster(c)
    ensures forall m :: t.IsNode(m) ==> c !in NodeAt(s.nodes, m).free
    ensures forall m :: t.IsNode(m) && m != s.dockers[id].memSet[0] ==> c !in NodeAt(s.nodes, m).occupied
  {
    assert Placed(t, s, s.dockers[id]);
    OccupiedElsewhere(t, s, P, s.dockers[id].memSet[0], c);
  }

  lemma OwnedSame(t: Topology, s: State, r: State, P: set<string>)
    requires Owned(t, s, P) && r.nodes == s.nodes
    requires forall i, k :: Holds(r, i, k) <==> Holds(s, i, k)
    ensures Owned(t, r, P)
  {
    forall m, k | t.IsNode(m) && k in NodeAt(r.nodes, m).occupied ensures exists i :: i in P && Holds(r, i, k) {
      var i :| i in P && Holds(s, i, k);
      assert Holds(r, i, k);
    }
  }

  lemma PlacedAfterExchange(t: Topology, s: State, r: State, P: set<string>, id: string, c: int, i: string)
    requires AllPlaced(t, s, P) && Owned(t, s, P) && id in P && i in P && c in s.dockers[id].bind
    requires CoreExchange(s, r, id, c)
    ensures Placed(t, r, r.dockers[i])
  {
    assert Placed(t, s, s.dockers[i]);
    if i == id {
      OccBagChange(s.clusters, r.clusters, s.dockers[id].bind, c);
      Cancel(multiset(r.dockers[id].cpuSet), OccBag(r.clusters, r.dockers[id].bind), multiset(ClusterAt(s.clusters, c).occupied));
    } else {
      assert Holds(s, id, c);
      assert !Holds(s, i, c);
      OccBagSame(s.clusters, r.clusters, s.dockers[i].bind);
    }
  }

  lemma Cancel<T(!new)>(a: multiset<T>, b: multiset<T>, c: multiset<T>)
    requires a + c == b + c
    ensures a == b
  {
    forall x ensures a[x] == b[x] {
      assert (a + c)[x] == (b + c)[x];
    }
  }

  lemma GrabKeeps(t: Topology, s: State, P: set<string>, id: string, c: int, xs: seq<int>)
    requires Partitioned(t, s, P) && id in P && c in s.dockers[id].bind
    requires NoDup(xs) && forall x :: x in xs ==> x in ClusterAt(s.clusters, c).free
    ensures Partitioned(t, Grab(s, id, c, xs), P)
  {
    hide Partitioned;
    var free := ClusterAt(s.clusters, c).free;
    HeldIsOccupied(t, s, P, id, c);
    CorePlace(t, s, P, c);
    WithoutBag(free, xs);
    PlacedIn(t, s, P, id);
    hide Placed;
    ExchangeKeeps(t, s, Grab(s, id, c, xs), P, id, c);
  }

  lemma DropKeeps(t: Topology, s: State, P: set<string>, id: string)
    requires Partitioned(t, s, P) && id in P && |s.dockers[id].bind| > 0
    requires |ClusterAt(s.clusters, Last(s.dockers[id].bind)).occupied| > 0
    ensures Partitioned(t, Drop(s, id), P)
    ensures |Drop(s, id).dockers[id].cpuSet| == |s.dockers[id].cpuSet| - 1
  {
    var d := s.dockers[id];
    var c := Last(d.bind);
    var occ := ClusterAt(s.clusters, c).occupied;
    var x := Last(occ);
    assert Placed(t, s, d);
    InitLast(occ);
    CpuSetDistinct(t, s, P, id);
    assert x in d.cpuSet by {
      OccBagMember(s.clusters, d.bind, x);
      assert x in multiset(d.cpuSet);
    }
    WithoutBag(d.cpuSet, [x]);
    assert multiset([x]) == multiset{x};
    ExchangeKeeps(t, s, Drop(s, id), P, id, c);
  }

  /** No CPU is listed twice in a placed container's cpuset. */
  lemma CpuSetDistinct(t: Topology, s: State, P: set<string>, id: string)
    requires Partitioned(t, s, P) && id in P
    ensures NoDup(s.dockers[id].cpuSet)
  {
    var d := s.dockers[id];
    assert Placed(t, s, d);
    forall c | c in d.bind ensures t.IsCluster(c) {
      OccupiedElsewhere(t, s, P, d.memSet[0], c);
    }
    OccBagOnce(t, s, P, d.bind);
    NoDupCount(d.cpuSet);
    forall x | x in d.cpuSet ensures multiset(d.cpuSet)[x] == 1 {
      assert x in OccBag(s.clusters, d.bind);
    }
  }

  lemma {:induction false} OccBagOnce(t: Topology, s: State, P: set<string>, bind: seq<int>)
    requires Partitioned(t, s, P) && NoDup(bind)
    requires forall c :: c in bind ==> t.IsCluster(c)
    ensures forall x :: x in OccBag(s.clusters, bind) ==> OccBag(s.clusters, bind)[x] == 1
  {
    if |bind| > 0 {
      InitLast(bind);
      var k := Last(bind);
      OccBagOnce(t, s, P, Init(bind));
      CorePlace(t, s, P, k);
      NoDupCount(ClusterAt(s.clusters, k).occupied);
      forall x | x in OccBag(s.clusters, Init(bind)) ensures x !in ClusterAt(s.clusters, k).occupied {
        OccBagMember(s.clusters, Init(bind), x);
        var c :| c in Init(bind) && x in ClusterAt(s.clusters, c).occupied;
        assert c in bind;
        CorePlace(t, s, P, c);
        if x in ClusterAt(s.clusters, k).occupied {
          BlocksApart(c, k, t.size, x);
        }
      }
    }
  }

  /** r is s with cluster c moved between the free and occupied lists of node n, id's list of clusters following along. */
  ghost predicate ClusterExchange(s: State, r: State, id: string, n: int, c: int) {
    && id in s.dockers && r.dockers.Keys == s.dockers.Keys
    && r.clusters == s.clusters
    && r.dockers == s.dockers[id := r.dockers[id]]
    && r.nodes == s.nodes[n := NodeAt(r.nodes, n)]
    && r.dockers[id].cpuSet == s.dockers[id].cpuSet && r.dockers[id].memSet == s.dockers[id].memSet
    && multiset(NodeAt(r.nodes, n).free) + multiset(NodeAt(r.nodes, n).occupied)
       == multiset(NodeAt(s.nodes, n).free) + multiset(NodeAt(s.nodes, n).occupied)
    && (forall k :: k in NodeAt(r.nodes, n).free ==> k in NodeAt(s.nodes, n).free || k == c)
    && (forall k :: k != c ==> (k in NodeAt(r.nodes, n).occupied <==> k in NodeAt(s.nodes, n).occupied))
    && (forall k :: k != c ==> (k in r.dockers[id].bind <==> k in s.dockers[id].bind))
  }

  lemma ClusterExchangeSplits(t: Topology, s: State, r: State, id: string, n: int, c: int)
    requires CoresOk(t, s) && NodesOk(t, s) && FreeUnused(t, s) && ClusterExchange(s, r, id, n, c)
    requires ClusterAt(s.clusters, c).occupied == []
    ensures CoresOk(t, r) && NodesOk(t, r) && FreeUnused(t, r)
  {
    forall k | t.IsCluster(k) ensures CoresSplit(t, r, k) {
      assert CoresSplit(t, s, k);
    }
    forall k | t.IsNode(k) ensures ClustersSplit(t, r, k) {
      assert ClustersSplit(t, s, k);
    }
    forall m, k | t.IsNode(m) && k in NodeAt(r.nodes, m).free ensures ClusterAt(r.clusters, k).occupied == [] {
      assert k in NodeAt(s.nodes, m).free || k == c;
    }
  }

  /** Containers that do not hold c are placed as before. */
  lemma PlacedBeside(t: Topology, s: State, r: State, P: set<string>, id: string, n: int, c: int, i: string)
    requires AllPlaced(t, s, P) && ClusterExchange(s, r, id, n, c) && i in P && i != id && !Holds(s, i, c)
    ensures Placed(t, r, r.dockers[i])
  {
    assert Placed(t, s, s.dockers[i]);
    var d := s.dockers[i];
    forall k | k in d.bind ensures k in NodeAt(r.nodes, d.memSet[0]).occupied {
      assert k in NodeAt(s.nodes, d.memSet[0]).occupied && k != c;
    }
  }

  lemma ClaimIsExchange(t: Topology, s: State, P: set<string>, id: string, n: int, c: int)
    requires Partitioned(t, s, P) && id in P && t.IsNode(n) && c in NodeAt(s.nodes, n).free
    ensures ClusterExchange(s, Claim(s, id, n, c), id, n, c)
  {
    hide Partitioned;
    PlacedIn(t, s, P, id);
    var nd := NodeAt(s.nodes, n);
    ClusterPlace(t, s, P, n, c);
    WithoutBag(nd.free, [c]);
    assert forall k :: k in nd.occupied + [c] <==> k in nd.occupied || k == c;
    assert forall k :: k in s.dockers[id].bind + [c] <==> k in s.dockers[id].bind || k == c;
    assert multiset(nd.occupied + [c]) == multiset(nd.occupied) + multiset([c]);
  }

  lemma ClaimPlaced(t: Topology, s: State, P: set<string>, id: string, n: int, c: int)
    requires id in s.dockers && Placed(t, s, s.dockers[id]) && s.dockers[id].memSet == [n]
    requires c !in s.dockers[id].bind && ClusterAt(s.clusters, c).occupied == []
    ensures var r := Claim(s, id, n, c); Placed(t, r, r.dockers[id])
  {
    var d := s.dockers[id];
    OccBagAppend(s.clusters, d.bind, c);
    NoDupAppend(d.bind, [c]);
    assert forall k :: k in d.bind + [c] ==> k in NodeAt(s.nodes, n).occupied + [c];
  }

  lemma ClaimKeeps(t: Topology, s: State, P: set<string>, id: string, n: int, c: int)
    requires Partitioned(t, s, P) && id in P && s.dockers[id].memSet == [n] && c in NodeAt(s.nodes, n).free
    ensures Partitioned(t, Claim(s, id, n, c), P)
  {
    var r := Claim(s, id, n, c);
    assert Placed(t, s, s.dockers[id]) && t.IsNode(n);
    ClaimIsExchange(t, s, P, id, n, c);
    ClusterExchangeSplits(t, s, r, id, n, c);
    FreeUnheld(t, s, P, n, c);
    forall i | i in P ensures Placed(t, r, r.dockers[i]) {
      if i == id {
        assert !Holds(s, id, c);
        ClaimPlaced(t, s, P, id, n, c);
      } else {
        PlacedBeside(t, s, r, P, id, n, c, i);
      }
    }
    ClaimHolds(s, id, n, c);
    OwnedMore(t, s, r, P, id, n, c);
  }

  lemma ClaimHolds(s: State, id: string, n: int, c: int)
    requires id in s.dockers
    ensures forall i, k :: Holds(Claim(s, id, n, c), i, k) <==> Holds(s, i, k) || (i == id && k == c)
  {
    assert forall k :: k in s.dockers[id].bind + [c] <==> k in s.dockers[id].bind || k == c;
  }

  /** Nobody holds a free cluster. */
  lemma FreeUnheld(t: Topology, s: State, P: set<string>, n: int, c: int)
    requires Partitioned(t, s, P) && t.IsNode(n) && c in NodeAt(s.nodes, n).free
    ensures forall i :: !Holds(s, i, c)
  {
    forall i ensures !Holds(s, i, c) {
      if Holds(s, i, c) {
        assert i in P;
        HeldIsOccupied(t, s, P, i, c);
        assert false;
      }
    }
  }

  lemma OwnedMore(t: Topology, s: State, r: State, P: set<string>, id: string, n: int, c: int)
    requires Owned(t, s, P) && ClusterExchange(s, r, id, n, c) && id in P
    requires forall i :: !Holds(s, i, c)
    requires forall i, k :: Holds(r, i, k) <==> Holds(s, i, k) || (i == id && k == c)
    ensures Owned(t, r, P)
  {
    forall m, k | t.IsNode(m) && k in NodeAt(r.nodes, m).occupied ensures exists i :: i in P && Holds(r, i, k) {
      if k == c {
        assert Holds(r, id, c);
      } else {
        assert k in NodeAt(s.nodes, m).occupied;
        var i :| i in P && Holds(s, i, k);
        assert Holds(r, i, k);
      }
    }
  }

  lemma ReleaseIsExchange(t: Topology, s: State, P: set<string>, id: string, n: int, c: int)
    requires Partitioned(t, s, P) && id in P && |s.dockers[id].bind| > 0
    requires n == HomeOf(s.dockers[id]) && c == Last(s.dockers[id].bind)
    ensures var r := Release(s, id);
            && ClusterExchange(s, r, id, n, c)
            && c !in r.dockers[id].bind && NoDup(r.dockers[id].bind) && c !in NodeAt(r.nodes, n).occupied
  {
    hide Partitioned;
    PlacedIn(t, s, P, id);
    var nd := NodeAt(s.nodes, n);
    InitDistinct(s.dockers[id].bind);
    HeldIsOccupied(t, s, P, id, c);
    ClusterPlace(t, s, P, n, c);
    hide Placed;
    WithoutBag(nd.occupied, [c]);
    assert multiset(nd.free + [c]) == multiset(nd.free) + multiset([c]);
  }

  lemma InitDistinct(b: seq<int>)
    requires |b| > 0 && NoDup(b)
    ensures NoDup(Init(b)) && Last(b) !in Init(b)
    ensures forall k :: k in b <==> k in Init(b) || k == Last(b)
  {
    InitLast(b);
  }

  lemma ReleasePlaced(t: Topology, s: State, id: string, n: int, c: int)
    requires id in s.dockers && Placed(t, s, s.dockers[id]) && |s.dockers[id].bind| > 0
    requires n == HomeOf(s.dockers[id]) && c == Last(s.dockers[id].bind) && ClusterAt(s.clusters, c).occupied == []
    requires ClusterExchange(s, Release(s, id), id, n, c)
    requires var b := Release(s, id).dockers[id].bind; NoDup(b) && c !in b
    ensures var r := Release(s, id); Placed(t, r, r.dockers[id])
  {
    var r, d := Release(s, id), s.dockers[id];
    assert OccBag(s.clusters, d.bind) == OccBag(s.clusters, Init(d.bind));
    forall k | k in Init(d.bind) ensures k in NodeAt(r.nodes, n).occupied {
      assert k in d.bind && k != c;
    }
  }

  lemma ReleaseKeeps(t: Topology, s: State, P: set<string>, id: string)
    requires Partitioned(t, s, P) && id in P && |s.dockers[id].bind| > 0
    requires ClusterAt(s.clusters, Last(s.dockers[id].bind)).occupied == []
    ensures Partitioned(t, Release(s, id), P)
  {
    var r := Release(s, id);
    var n, c := HomeOf(s.dockers[id]), Last(s.dockers[id].bind);
    HeldIsOccupied(t, s, P, id, c);
    ReleaseIsExchange(t, s, P, id, n, c);
    ClusterExchangeSplits(t, s, r, id, n, c);
    assert Holds(s, id, c);
    forall i | i in P ensures Placed(t, r, r.dockers[i]) {
      assert Placed(t, s, s.dockers[i]);
      if i == id {
        ReleasePlaced(t, s, id, n, c);
      } else {
        PlacedBeside(t, s, r, P, id, n, c, i);
      }
    }
    OwnedLess(t, s, r, P, id, n, c);
  }

  lemma OwnedLess(t: Topology, s: State, r: State, P: set<string>, id: string, n: int, c: int)
    requires Owned(t, s, P) && ClusterExchange(s, r, id, n, c) && Holds(s, id, c)
    requires c !in r.dockers[id].bind && c !in NodeAt(r.nodes, n).occupied
    requires forall m :: t.IsNode(m) && m != n ==> c !in NodeAt(s.nodes, m).occupied
    ensures Owned(t, r, P)
  {
    assert forall i, k :: Holds(r, i, k) ==> Holds(s, i, k);
    forall m, k | t.IsNode(m) && k in NodeAt(r.nodes, m).occupied ensures exists i :: i in P && Holds(r, i, k) {
      assert k != c && k in NodeAt(s.nodes, m).occupied;
      var i :| i in P && Holds(s, i, k);
      assert Holds(r, i, k);
    }
  }

  /** Placing a container that holds nothing yet. */
  lemma EnrollKeeps(t: Topology, s: State, P: set<string>, id: string, n: int)
    requires Partitioned(t, s, P) && id in s.dockers && id !in P && t.IsNode(n)
    ensures Partitioned(t, Enroll(s, id, n), P + {id})
  {
    var r := Enroll(s, id, n);
    assert s.dockers[id].bind == [];
    assert CoresOk(t, r) && NodesOk(t, r) by {
      assert forall k :: t.IsCluster(k) && CoresSplit(t, s, k) ==> CoresSplit(t, r, k);
      assert forall k :: t.IsNode(k) && ClustersSplit(t, s, k) ==> ClustersSplit(t, r, k);
    }
    forall i | i in P + {id} ensures Placed(t, r, r.dockers[i]) {
      if i != id {
        assert Placed(t, s, s.dockers[i]);
      }
    }
    assert forall i, k :: Holds(r, i, k) <==> Holds(s, i, k);
    OwnedSame(t, s, r, P);
    assert Owned(t, r, P + {id});
  }
}
