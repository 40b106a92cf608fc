/** The allocator's compositions as the source performs them: in bulk, with each table written once. */
module ClusterBulk {
  import opened Seqs
  import opened Topologies
  import opened Ceilings
  import opened ClusterSelection
  import opened ClusterSpec
  import opened ClusterInvariant
  import opened ClusterSteps
  import opened ClusterRounds
  import opened ClusterSound
  import opened ClusterLedger
  import opened ClusterReturns

  // ---------- Bulk forms of the compositions ----------

  /** The cluster table after filling `ids`, and the CPUs taken. */
  ghost function Filled(t: Topology, sel: Selector, clusters: map<int, Cluster>, ids: seq<int>, need: int): (map<int, Cluster>, seq<int>)
    decreases |ids|
  {
    if |ids| == 0 then (clusters, [])
    else
      var cl := ClusterAt(clusters, ids[0]);
      if |ids| == 1 then
        var xs := PickFrom(t, sel, ids[0], cl.free, need);
        (clusters[ids[0] := cl.(free := Without(cl.free, xs), occupied := cl.occupied + xs)], xs)
      else
        var rest := Filled(t, sel, clusters[ids[0] := cl.(free := [], occupied := cl.occupied + cl.free)], ids[1..], need - |cl.free|);
        (rest.0, cl.free + rest.1)
  }

  function AddCpus(s: State, id: string, xs: seq<int>): State
    requires id in s.dockers
  {
    s.(dockers := s.dockers[id := s.dockers[id].(cpuSet := s.dockers[id].cpuSet + xs)])
  }

  lemma {:induction false} FillAllIsFilled(t: Topology, sel: Selector, s: State, id: string, ids: seq<int>, need: int)
    requires id in s.dockers
    ensures var (clusters, xs) := Filled(t, sel, s.clusters, ids, need);
            FillAll(t, sel, s, id, ids, need) == AddCpus(s, id, xs).(clusters := clusters)
    decreases |ids|
  {
    if |ids| == 0 {
      assert s.dockers[id].cpuSet + [] == s.dockers[id].cpuSet;
      assert AddCpus(s, id, []) == s;
    } else if |ids| > 1 {
      var cl := ClusterAt(s.clusters, ids[0]);
      var g, rest, need' := Grab(s, id, ids[0], cl.free), ids[1..], need - |cl.free|;
      WithoutAll(cl.free, cl.free);
      FillAllIsFilled(t, sel, g, id, rest, need');
      var xs := Filled(t, sel, g.clusters, rest, need').1;
      hide FillAll;
      hide Filled;
      hide PickFrom;
      AddCpusTwice(s, id, cl.free, xs);
    }
  }

  lemma AddCpusTwice(s: State, id: string, xs: seq<int>, ys: seq<int>)
    requires id in s.dockers
    ensures AddCpus(AddCpus(s, id, xs), id, ys) == AddCpus(s, id, xs + ys)
  {
    assert s.dockers[id].cpuSet + xs + ys == s.dockers[id].cpuSet + (xs + ys);
  }

  function AddClusters(s: State, id: string, n: int, ids: seq<int>): State
    requires id in s.dockers
  {
    var d, nd := s.dockers[id], NodeAt(s.nodes, n);
    s.(dockers := s.dockers[id := d.(bind := d.bind + ids)],
       nodes := s.nodes[n := Node(Without(nd.free, ids), nd.occupied + ids)])
  }

  lemma {:induction false} ClaimAllIsBulk(s: State, id: string, n: int, ids: seq<int>)
    requires id in s.dockers && n in s.nodes
    ensures ClaimAll(s, id, n, ids) == AddClusters(s, id, n, ids)
    decreases |ids|
  {
    if |ids| == 0 {
      var d, nd := s.dockers[id], NodeAt(s.nodes, n);
      WithoutNone(nd.free, []);
      assert nd.occupied + [] == nd.occupied && d.bind + [] == d.bind;
      assert AddClusters(s, id, n, ids) == s;
    } else {
      var c, rest := ids[0], ids[1..];
      ClaimAllIsBulk(Claim(s, id, n, c), id, n, rest);
      assert Claim(s, id, n, c) == AddClusters(s, id, n, [c]);
      AddClustersTwice(s, id, n, [c], rest);
      assert [c] + rest == ids;
    }
  }

  lemma AddClustersTwice(s: State, id: string, n: int, a: seq<int>, b: seq<int>)
    requires id in s.dockers
    ensures AddClusters(AddClusters(s, id, n, a), id, n, b) == AddClusters(s, id, n, a + b)
  {
    var d, nd := s.dockers[id], NodeAt(s.nodes, n);
    WithoutTwice(nd.free, a, b);
    assert d.bind + a + b == d.bind + (a + b) && nd.occupied + a + b == nd.occupied + (a + b);
  }

  lemma {:induction false} PickCpusAppend(t: Topology, sel: Selector, c: int, avail: set<int>, done: seq<int>, m: nat)
    requires |done| <= m
    requires done == PickCpus(t, sel, c, avail, |done|)
    requires m > |done|
    ensures done + [NextCpu(t, sel, c, avail - SetOf(done))] == PickCpus(t, sel, c, avail, |done| + 1)
    decreases |done|
  {
    if |done| == 0 {
      assert avail - SetOf(done) == avail;
      assert PickCpus(t, sel, c, avail - {NextCpu(t, sel, c, avail)}, 0) == [];
    } else {
      var x, rest := done[0], done[1..];
      assert x == NextCpu(t, sel, c, avail) && rest == PickCpus(t, sel, c, avail - {x}, |done| - 1);
      PickCpusAppend(t, sel, c, avail - {x}, rest, m - 1);
      assert avail - {x} - SetOf(rest) == avail - SetOf(done) by {
        assert done == [x] + rest;
        assert SetOf(done) == {x} + SetOf(rest);
      }
      assert done == [x] + rest;
    }
  }

  lemma {:induction false} PickClustersAppend(t: Topology, sel: Selector, n: int, occ: seq<int>, done: seq<int>)
    requires done == PickClusters(t, sel, n, occ, |done|)
    ensures done + [NextCluster(t, sel, n, occ + done)] == PickClusters(t, sel, n, occ, |done| + 1)
    decreases |done|
  {
    if |done| == 0 {
      assert occ + done == occ;
      assert PickClusters(t, sel, n, occ + [NextCluster(t, sel, n, occ)], 0) == [];
    } else {
      var c, rest := done[0], done[1..];
      assert c == NextCluster(t, sel, n, occ) && rest == PickClusters(t, sel, n, occ + [c], |done| - 1);
      PickClustersAppend(t, sel, n, occ + [c], rest);
      assert done == [c] + rest;
      assert occ + [c] + rest == occ + done;
    }
  }

  /** A cluster's free cores lie in its own block of CPUs. */
  ghost predicate FreeInBlock(t: Topology, clusters: map<int, Cluster>, c: int) {
    InCluster(t, c, SetOf(ClusterAt(clusters, c).free))
  }

  ghost predicate OutsideBlock(t: Topology, c: int, xs: seq<int>) {
    forall x :: x in xs ==> !(c * t.size <= x < c * t.size + t.size)
  }

  /** The lists of a node partition its clusters. */
  lemma SplitFacts(t: Topology, s: State, n: int)
    requires ClustersSplit(t, s, n)
    ensures var nd := NodeAt(s.nodes, n);
            && NoDup(nd.free)
            && (forall c :: c in nd.occupied ==> c in t.ClusterIds(n))
            && (forall c :: c in nd.free <==> c in t.ClusterIds(n) && c !in nd.occupied)
  {
    var nd := NodeAt(s.nodes, n);
    PermNoDup(nd.free + nd.occupied, t.ClusterIds(n));
    ClusterIdsFacts(t, n);
    NoDupAppend(nd.free, nd.occupied);
    assert forall c :: c in nd.free + nd.occupied <==> c in nd.free || c in nd.occupied;
  }

  /** A free cluster: all its cores are free, in its block, and none of them is among `already`. */
  ghost predicate Untouched(t: Topology, clusters: map<int, Cluster>, c: int, already: seq<int>) {
    FreeInBlock(t, clusters, c) && OutsideBlock(t, c, already) && |ClusterAt(clusters, c).free| == t.Cores()
  }

  /** What an addition relies on. */
  ghost predicate CanGrow(t: Topology, s: State, id: string) {
    && id in s.dockers && t.Cores() > 0
    && var d := s.dockers[id];
       && |d.memSet| == 1 && t.IsNode(d.memSet[0]) && d.memSet[0] in s.nodes && |d.bind| > 0
       && ClustersSplit(t, s, d.memSet[0]) && FreeInBlock(t, s.clusters, Last(d.bind))
       && forall c :: c in NodeAt(s.nodes, d.memSet[0]).free ==>
            Untouched(t, WholeTaken(s.clusters, Last(d.bind)), c, ClusterAt(s.clusters, Last(d.bind)).free)
  }

  /** ... for `need` more cores. */
  ghost predicate RoomFor(t: Topology, s: State, id: string, need: int) {
    && CanGrow(t, s, id) && need >= 0
    && var spare := Spare(s, s.dockers[id]);
       need > spare ==> CeilDiv(need - spare, t.Cores()) <= |NodeAt(s.nodes, HomeOf(s.dockers[id])).free|
  }

  /** The states in which a limit may be added. */
  ghost predicate CanAdd(t: Topology, s: State, id: string, limit: real) {
    && t.Uniform() && Sound(t, s) && id in BoundIds(s) && limit >= 0.0
    && NewClusters(t, s, id, limit) <= |NodeAt(s.nodes, HomeOf(s.dockers[id])).free|
  }

  lemma GrowthReady(t: Topology, s: State, id: string)
    requires Sound(t, s) && id in BoundIds(s)
    ensures CanGrow(t, s, id)
  {
    var d, P := s.dockers[id], BoundIds(s);
    PlacedIn(t, s, P, id);
    assert Sized(d) && ClustersSplit(t, s, d.memSet[0]);
    var n, k := d.memSet[0], Last(d.bind);
    BlockOfHeld(t, s, P, id, k);
    forall c | c in NodeAt(s.nodes, n).free ensures Untouched(t, WholeTaken(s.clusters, k), c, ClusterAt(s.clusters, k).free) {
      FreeUntouched(t, s, P, id, k, n, c);
      hide Partitioned;
      hide Sound;
    }
  }

  lemma SplitElsewhere(t: Topology, a: State, b: State, n: int)
    requires ClustersSplit(t, a, n) && a.nodes == b.nodes
    ensures ClustersSplit(t, b, n)
  {
  }

  lemma BlockOfHeld(t: Topology, s: State, P: set<string>, id: string, k: int)
    requires Partitioned(t, s, P) && id in P && k in s.dockers[id].bind
    ensures FreeInBlock(t, s.clusters, k)
  {
    HeldIsOccupied(t, s, P, id, k);
    CorePlace(t, s, P, k);
  }

  lemma FreeUntouched(t: Topology, s: State, P: set<string>, id: string, k: int, n: int, c: int)
    requires Partitioned(t, s, P) && id in P && k in s.dockers[id].bind && t.IsNode(n) && c in NodeAt(s.nodes, n).free
    ensures c != k && Untouched(t, s.clusters, c, ClusterAt(s.clusters, k).free)
  {
    HeldIsOccupied(t, s, P, id, k);
    ClusterPlace(t, s, P, n, c);
    CorePlace(t, s, P, c);
    CorePlace(t, s, P, k);
    assert ClusterAt(s.clusters, c).occupied == [];
    forall x | x in ClusterAt(s.clusters, k).free ensures !(c * t.size <= x < c * t.size + t.size) {
      if c * t.size <= x < c * t.size + t.size {
        BlocksApart(c, k, t.size, x);
      }
    }
  }

  /** The result of claiming and filling clusters, in one go. */
  ghost function Spreaded(t: Topology, sel: Selector, s: State, id: string, n: int, ids: seq<int>, need: int): State
    requires id in s.dockers
  {
    var d, nd := s.dockers[id], NodeAt(s.nodes, n);
    var f := Filled(t, sel, s.clusters, ids, need);
    State(s.dockers[id := d.(cpuSet := d.cpuSet + f.1, bind := d.bind + ids)],
          f.0, s.nodes[n := Node(Without(nd.free, ids), nd.occupied + ids)])
  }

  lemma SpreadIsBulk(t: Topology, sel: Selector, s: State, id: string, n: int, ids: seq<int>, need: int)
    requires id in s.dockers && n in s.nodes
    ensures FillAll(t, sel, ClaimAll(s, id, n, ids), id, ids, need) == Spreaded(t, sel, s, id, n, ids, need)
  {
    hide FillAll;
    hide ClaimAll;
    hide Filled;
    ClaimAllIsBulk(s, id, n, ids);
    FillAllIsFilled(t, sel, AddClusters(s, id, n, ids), id, ids, need);
  }

  function GrabbedAll(s: State, id: string, k: int): State
    requires id in s.dockers
  {
    var d, cl := s.dockers[id], ClusterAt(s.clusters, k);
    State(s.dockers[id := d.(cpuSet := d.cpuSet + cl.free)],
          s.clusters[k := cl.(free := [], occupied := cl.occupied + cl.free)], s.nodes)
  }

  /** Widening beyond the newest cluster: `rest` cores come from the new clusters `ids`. */
  lemma WidenWide(t: Topology, sel: Selector, s: State, id: string, need: int, rest: int, ids: seq<int>)
    requires t.Uniform() && id in s.dockers && HomeOf(s.dockers[id]) in s.nodes && t.Cores() > 0
    requires rest == need - Spare(s, s.dockers[id]) > 0
    requires ids == PickClusters(t, sel, HomeOf(s.dockers[id]), NodeAt(s.nodes, HomeOf(s.dockers[id])).occupied, CeilDiv(rest, t.Cores()))
    ensures var d := s.dockers[id];
            Widen(t, sel, s, id, need) == Spreaded(t, sel, GrabbedAll(s, id, NewestOf(d)), id, HomeOf(d), ids, rest)
  {
    GrabThenSpread(t, sel, s, id, NewestOf(s.dockers[id]), HomeOf(s.dockers[id]), ids, rest);
    hide CeilDiv;
    hide FillAll;
    hide ClaimAll;
    hide PickClusters;
    hide Spreaded;
    hide Grab;
    hide GrabbedAll;
    hide PickFrom;
    hide NewestOf;
    hide HomeOf;
  }

  lemma GrabThenSpread(t: Topology, sel: Selector, s: State, id: string, k: int, n: int, ids: seq<int>, rest: int)
    requires id in s.dockers && n in s.nodes
    ensures FillAll(t, sel, ClaimAll(Grab(s, id, k, ClusterAt(s.clusters, k).free), id, n, ids), id, ids, rest) ==
              Spreaded(t, sel, GrabbedAll(s, id, k), id, n, ids, rest)
  {
    GrabAll(s, id, k);
    SpreadIsBulk(t, sel, GrabbedAll(s, id, k), id, n, ids, rest);
    hide FillAll;
    hide ClaimAll;
    hide Spreaded;
    hide GrabbedAll;
    hide Grab;
  }

  lemma GrabAll(s: State, id: string, k: int)
    requires id in s.dockers
    ensures Grab(s, id, k, ClusterAt(s.clusters, k).free) == GrabbedAll(s, id, k)
    ensures GrabbedAll(s, id, k).nodes == s.nodes && id in GrabbedAll(s, id, k).dockers
  {
    WithoutAll(ClusterAt(s.clusters, k).free, ClusterAt(s.clusters, k).free);
  }

  /** s with the container's cpuset and clusters extended, and the tables replaced. */
  ghost function Extended(s: State, id: string, xs: seq<int>, ids: seq<int>, clusters: map<int, Cluster>, nodes: map<int, Node>): State
    requires id in s.dockers
  {
    var d := s.dockers[id];
    State(s.dockers[id := d.(cpuSet := d.cpuSet + xs, bind := d.bind + ids)], clusters, nodes)
  }

  ghost function NodeTaken(nodes: map<int, Node>, n: int, ids: seq<int>): map<int, Node> {
    var nd := NodeAt(nodes, n);
    nodes[n := Node(Without(nd.free, ids), nd.occupied + ids)]
  }

  ghost function WholeTaken(clusters: map<int, Cluster>, k: int): map<int, Cluster> {
    var cl := ClusterAt(clusters, k);
    clusters[k := cl.(free := [], occupied := cl.occupied + cl.free)]
  }

  ghost function CoresTaken(clusters: map<int, Cluster>, k: int, xs: seq<int>): map<int, Cluster> {
    var cl := ClusterAt(clusters, k);
    clusters[k := cl.(free := Without(cl.free, xs), occupied := cl.occupied + xs)]
  }

  /** Widening within the newest cluster, written out. */
  lemma WidenNarrow(t: Topology, sel: Selector, s: State, id: string, need: int)
    requires t.Uniform() && id in s.dockers && |s.dockers[id].bind| > 0
    requires |ClusterAt(s.clusters, Last(s.dockers[id].bind)).free| >= need
    ensures var k := Last(s.dockers[id].bind);
            var xs := PickFrom(t, sel, k, ClusterAt(s.clusters, k).free, need);
            Widen(t, sel, s, id, need) == Extended(s, id, xs, [], CoresTaken(s.clusters, k, xs), s.nodes)
  {
    assert s.dockers[id].bind + [] == s.dockers[id].bind;
  }

  /** Widening beyond it, written out. */
  lemma WidenBeyond(t: Topology, sel: Selector, s: State, id: string, need: int, rest: int, ids: seq<int>)
    requires t.Uniform() && id in s.dockers && HomeOf(s.dockers[id]) in s.nodes && t.Cores() > 0
    requires rest == need - Spare(s, s.dockers[id]) > 0
    requires ids == PickClusters(t, sel, HomeOf(s.dockers[id]), NodeAt(s.nodes, HomeOf(s.dockers[id])).occupied, CeilDiv(rest, t.Cores()))
    ensures var d := s.dockers[id];
            var k := NewestOf(d);
            var f := Filled(t, sel, WholeTaken(s.clusters, k), ids, rest);
            Widen(t, sel, s, id, need) ==
              Extended(s, id, ClusterAt(s.clusters, k).free + f.1, ids, f.0, NodeTaken(s.nodes, HomeOf(d), ids))
  {
    WidenWide(t, sel, s, id, need, rest, ids);
    EntryOnce(t, sel, s, id, NewestOf(s.dockers[id]), HomeOf(s.dockers[id]), ids, rest);
    hide Widen;
    hide Filled;
    hide PickClusters;
    hide CeilDiv;
    hide Extended;
    hide Spreaded;
    hide GrabbedAll;
    hide WholeTaken;
    hide NodeTaken;
    hide NewestOf;
    hide HomeOf;
  }

  /** Writing the container's entry once, at the end, gives the same state. */
  lemma EntryOnce(t: Topology, sel: Selector, s: State, id: string, k: int, n: int, ids: seq<int>, rest: int)
    requires id in s.dockers
    ensures var f := Filled(t, sel, WholeTaken(s.clusters, k), ids, rest);
            Spreaded(t, sel, GrabbedAll(s, id, k), id, n, ids, rest) ==
              Extended(s, id, ClusterAt(s.clusters, k).free + f.1, ids, f.0, NodeTaken(s.nodes, n, ids))
  {
    hide Filled;
    var d := s.dockers[id];
    var f := Filled(t, sel, WholeTaken(s.clusters, k), ids, rest);
    var free := ClusterAt(s.clusters, k).free;
    assert d.cpuSet + free + f.1 == d.cpuSet + (free + f.1);
  }

  lemma AddReady(t: Topology, s: State, id: string, limit: real)
    requires CanAdd(t, s, id, limit)
    ensures id in s.dockers && RoomFor(t, s, id, Extra(s.dockers[id], limit))
  {
    GrowthReady(t, s, id);
    hide Sound;
    hide CanGrow;
    CeilMonotone(s.dockers[id].current, s.dockers[id].current + limit);
  }

  /** The container's entry with the new cores, clusters and limit. */
  ghost function Enlarged(s: State, id: string, xs: seq<int>, ids: seq<int>, limit: real): State
    requires id in s.dockers
  {
    var d := s.dockers[id];
    s.(dockers := s.dockers[id := d.(cpuSet := d.cpuSet + xs, bind := d.bind + ids, current := d.current + limit)])
  }

  lemma EnlargeExtended(s: State, id: string, xs: seq<int>, ids: seq<int>, clusters: map<int, Cluster>, nodes: map<int, Node>, limit: real)
    requires id in s.dockers
    ensures id in Extended(s, id, xs, ids, clusters, nodes).dockers
    ensures SetLimit(Extended(s, id, xs, ids, clusters, nodes), id, s.dockers[id].current + limit) ==
              Enlarged(State(s.dockers, clusters, nodes), id, xs, ids, limit)
  {
  }

  /** The new limit is written together with the new cpuset and clusters. */
  lemma AddLimitWritten(t: Topology, sel: Selector, s: State, id: string, limit: real,
                        xs: seq<int>, ids: seq<int>, clusters: map<int, Cluster>, nodes: map<int, Node>)
    requires t.Uniform() && id in s.dockers
    requires Widen(t, sel, s, id, Extra(s.dockers[id], limit)) == Extended(s, id, xs, ids, clusters, nodes)
    ensures AddLimit(t, sel, s, id, limit) == Enlarged(State(s.dockers, clusters, nodes), id, xs, ids, limit)
  {
    EnlargeExtended(s, id, xs, ids, clusters, nodes, limit);
    hide Widen;
    hide Extended;
    hide Enlarged;
    hide SetLimit;
    hide Extra;
  }

  lemma UseCluster(t: Topology, n: int, occupied: seq<int>, c: int)
    requires n * t.perNode <= c < n * t.perNode + t.perNode
    ensures ClusterUsedRow(t, n, occupied)[c - n * t.perNode := true] == ClusterUsedRow(t, n, occupied + [c])
  {
  }

  lemma UseCpu(t: Topology, c: int, avail: set<int>, cpu: int)
    requires c * t.size <= cpu < c * t.size + t.size
    ensures CpuUsedRow(t, c, avail)[cpu - c * t.size := true] == CpuUsedRow(t, c, avail - {cpu})
  {
  }

  /** Refreshing the free list against all occupied clusters removes just the newly selected ones. */
  lemma OnlyNew(free: seq<int>, occupied: seq<int>, ids: seq<int>)
    requires forall c :: c in free ==> c !in occupied
    ensures Without(free, occupied + ids) == Without(free, ids)
  {
    WithoutSame(free, occupied + ids, ids);
  }

  lemma OnlyPicked(free: seq<int>, already: seq<int>, cpus: seq<int>)
    requires forall x :: x in free ==> x !in already
    ensures Without(free, already + cpus) == Without(free, cpus)
  {
    WithoutSame(free, already + cpus, cpus);
  }

  ghost function Prepend(xs: seq<int>, f: (map<int, Cluster>, seq<int>)): (map<int, Cluster>, seq<int>) {
    (f.0, xs + f.1)
  }

  lemma FilledStep(t: Topology, sel: Selector, clusters: map<int, Cluster>, ids: seq<int>, need: int, xs: seq<int>)
    requires |ids| > 1
    ensures var cl := ClusterAt(clusters, ids[0]);
            var next := clusters[ids[0] := cl.(free := [], occupied := cl.occupied + cl.free)];
            Prepend(xs, Filled(t, sel, clusters, ids, need)) == Prepend(xs + cl.free, Filled(t, sel, next, ids[1..], need - |cl.free|))
  {
    var cl := ClusterAt(clusters, ids[0]);
    var rest := Filled(t, sel, clusters[ids[0] := cl.(free := [], occupied := cl.occupied + cl.free)], ids[1..], need - |cl.free|);
    assert xs + (cl.free + rest.1) == xs + cl.free + rest.1;
  }

  lemma FilledLast(t: Topology, sel: Selector, clusters: map<int, Cluster>, c: int, need: int)
    ensures var cl := ClusterAt(clusters, c);
            var xs := PickFrom(t, sel, c, cl.free, need);
            Filled(t, sel, clusters, [c], need) == (clusters[c := cl.(free := Without(cl.free, xs), occupied := cl.occupied + xs)], xs)
  {
  }

  lemma SameFree(t: Topology, a: map<int, Cluster>, b: map<int, Cluster>, c: int)
    requires FreeInBlock(t, a, c) && ClusterAt(a, c) == ClusterAt(b, c)
    ensures FreeInBlock(t, b, c)
  {
  }

  /** The cores taken from the first cluster lie outside the blocks of the others. */
  lemma StillOutside(t: Topology, clusters: map<int, Cluster>, ids: seq<int>, already: seq<int>)
    requires |ids| > 0 && NoDup(ids) && FreeInBlock(t, clusters, ids[0])
    requires forall c :: c in ids ==> OutsideBlock(t, c, already)
    ensures forall c :: c in ids[1..] ==> c != ids[0] && OutsideBlock(t, c, already + ClusterAt(clusters, ids[0]).free)
  {
    var free := ClusterAt(clusters, ids[0]).free;
    forall c | c in ids[1..] ensures c != ids[0] && OutsideBlock(t, c, already + free) {
      assert c in ids;
      forall x | x in free ensures !(c * t.size <= x < c * t.size + t.size) {
        assert x in SetOf(free);
        if c * t.size <= x < c * t.size + t.size {
          BlocksApart(ids[0], c, t.size, x);
        }
      }
    }
  }

  // ---------- Giving back ----------

  /** The state once the CPUs `minus` leave the container's cpuset. */
  ghost function Trimmed(s: State, id: string, minus: seq<int>): (r: State)
    requires id in s.dockers
    ensures r.dockers.Keys == s.dockers.Keys
  {
    s.(dockers := s.dockers[id := s.dockers[id].(cpuSet := Without(s.dockers[id].cpuSet, minus))])
  }

  /** `need` more CPUs can be given back. */
  ghost predicate Giving(t: Topology, s: State, P: set<string>, id: string, minus: seq<int>, need: nat) {
    id in s.dockers && id in P
    && var v := Trimmed(s, id, minus);
       Partitioned(t, v, P) && need <= |v.dockers[id].cpuSet| && |v.dockers[id].bind| > 0
  }

  /** The newest core of cluster k moves to its free list. */
  ghost function CoreFreed(s: State, k: int): State
    requires |ClusterAt(s.clusters, k).occupied| > 0
  {
    var cl := ClusterAt(s.clusters, k);
    s.(clusters := s.clusters[k := cl.(free := cl.free + [Last(cl.occupied)], occupied := Init(cl.occupied))])
  }

  lemma TrimmedDrop(s: State, id: string, minus: seq<int>)
    requires id in s.dockers && |s.dockers[id].bind| > 0
    requires |ClusterAt(s.clusters, Last(s.dockers[id].bind)).occupied| > 0
    ensures var k := Last(s.dockers[id].bind);
            Drop(Trimmed(s, id, minus), id) == Trimmed(CoreFreed(s, k), id, minus + [Last(ClusterAt(s.clusters, k).occupied)])
  {
    WithoutTwice(s.dockers[id].cpuSet, minus, [Last(ClusterAt(s.clusters, Last(s.dockers[id].bind)).occupied)]);
  }

  lemma TrimmedRelease(s: State, id: string, minus: seq<int>)
    requires id in s.dockers && |s.dockers[id].bind| > 0
    ensures Release(Trimmed(s, id, minus), id) == Trimmed(Release(s, id), id, minus)
  {
  }

  /** One turn of the loop, with the cpuset to be trimmed later. */
  lemma GivingTurn(t: Topology, s: State, P: set<string>, id: string, minus: seq<int>, need: nat)
    requires Giving(t, s, P, id, minus, need) && need > 0
    ensures |s.dockers[id].bind| > 0
    ensures var k := Last(s.dockers[id].bind);
            var cl := ClusterAt(s.clusters, k);
            if |cl.occupied| == 0 then
              && Giving(t, Release(s, id), P, id, minus, need)
              && GiveBack(Trimmed(s, id, minus), id, need) == GiveBack(Trimmed(Release(s, id), id, minus), id, need)
            else
              && Giving(t, CoreFreed(s, k), P, id, minus + [Last(cl.occupied)], need - 1)
              && GiveBack(Trimmed(s, id, minus), id, need) ==
                   GiveBack(Trimmed(CoreFreed(s, k), id, minus + [Last(cl.occupied)]), id, need - 1)
  {
    var v := Trimmed(s, id, minus);
    GiveBackTurn(t, v, P, id);
    GiveBackStep(v, id, need);
    if |ClusterAt(s.clusters, Last(s.dockers[id].bind)).occupied| == 0 {
      TrimmedRelease(s, id, minus);
    } else {
      TrimmedDrop(s, id, minus);
    }
    hide Partitioned;
    hide GiveBack;
    hide Release;
    hide Drop;
    hide OnlyPlacement;
    hide OnlyNode;
  }

  lemma GivingFacts(t: Topology, s: State, P: set<string>, id: string, minus: seq<int>, need: nat)
    requires Giving(t, s, P, id, minus, need)
    ensures id in s.dockers && |s.dockers[id].bind| > 0 && |s.dockers[id].memSet| == 1
  {
    assert Placed(t, Trimmed(s, id, minus), Trimmed(s, id, minus).dockers[id]);
  }

  lemma NothingToGive(s: State, id: string)
    requires id in s.dockers
    ensures GiveBack(s, id, 0) == s
  {
  }

  lemma GiveBackStep(s: State, id: string, need: nat)
    requires id in s.dockers && need > 0 && |s.dockers[id].bind| > 0
    ensures GiveBack(s, id, need) ==
              if |ClusterAt(s.clusters, Last(s.dockers[id].bind)).occupied| == 0 then GiveBack(Release(s, id), id, need)
              else GiveBack(Drop(s, id), id, need - 1)
  {
  }

  /** The states in which a limit may be withdrawn. */
  ghost predicate CanMinus(t: Topology, s: State, id: string, limit: real) {
    Sound(t, s) && id in BoundIds(s) && 0.0 <= limit <= s.dockers[id].current
  }

  lemma TrimmedNone(s: State, id: string)
    requires id in s.dockers
    ensures Trimmed(s, id, []) == s
  {
    WithoutNone(s.dockers[id].cpuSet, []);
  }

  lemma MinusReady(t: Topology, s: State, id: string, limit: real)
    requires CanMinus(t, s, id, limit)
    ensures id in s.dockers && Surplus(s.dockers[id], limit) >= 0
    ensures Giving(t, s, BoundIds(s), id, [], Surplus(s.dockers[id], limit))
  {
    var d := s.dockers[id];
    CeilMonotone(d.current - limit, d.current);
    CeilMonotone(0.0, d.current - limit);
    assert Sized(d);
    hide Partitioned;
    TrimmedNone(s, id);
  }

  ghost function Settled(s: State, id: string, minus: seq<int>, limit: real): State
    requires id in s.dockers
  {
    var d := s.dockers[id];
    s.(dockers := s.dockers[id := d.(cpuSet := Without(d.cpuSet, minus), current := d.current - limit)])
  }

  lemma {:induction false} GiveBackSameLimit(s: State, id: string, need: nat)
    requires id in s.dockers
    ensures GiveBack(s, id, need).dockers[id].current == s.dockers[id].current
    decreases need + |s.dockers[id].bind|
  {
    var d := s.dockers[id];
    if need > 0 && |d.bind| > 0 {
      if |ClusterAt(s.clusters, Last(d.bind)).occupied| == 0 {
        GiveBackSameLimit(Release(s, id), id, need);
      } else {
        GiveBackSameLimit(Drop(s, id), id, need - 1);
      }
    }
  }

  lemma SettleTrimmed(s: State, id: string, minus: seq<int>, limit: real)
    requires id in s.dockers
    ensures SetLimit(Trimmed(s, id, minus), id, s.dockers[id].current - limit) == Settled(s, id, minus, limit)
    ensures Trimmed(s, id, minus).dockers[id].current == s.dockers[id].current
  {
  }

  lemma MinusLimitStep(s: State, id: string, limit: real, need: nat)
    requires id in s.dockers && need == Surplus(s.dockers[id], limit)
    ensures MinusLimit(s, id, limit) == SetLimit(GiveBack(s, id, need), id, s.dockers[id].current - limit)
  {
    hide GiveBack;
    hide SetLimit;
  }

  /** The container's entry is written once, at the end. */
  lemma MinusLimitWritten(s: State, id: string, limit: real, r: State, minus: seq<int>, need: nat)
    requires id in s.dockers && id in r.dockers && need == Surplus(s.dockers[id], limit)
    requires Trimmed(r, id, minus) == GiveBack(s, id, need)
    ensures MinusLimit(s, id, limit) == Settled(r, id, minus, limit)
  {
    GiveBackSameLimit(s, id, need);
    SettleTrimmed(r, id, minus, limit);
    MinusLimitStep(s, id, limit, need);
    hide GiveBack;
    hide Trimmed;
    hide Settled;
    hide SetLimit;
    hide Surplus;
    hide MinusLimit;
  }

  // ---------- Binding ----------

  /** The container's entry once bound to the clusters ids of node n. */
  ghost function Seated(s: State, id: string, n: int, ids: seq<int>, xs: seq<int>): State
    requires id in s.dockers
  {
    s.(dockers := s.dockers[id := s.dockers[id].(cpuSet := xs, memSet := [n], bind := s.dockers[id].bind + ids)])
  }

  lemma SeatEnrolled(t: Topology, sel: Selector, s: State, id: string, n: int, ids: seq<int>, need: int)
    requires id in s.dockers
    ensures var f := Filled(t, sel, s.clusters, ids, need);
            Spreaded(t, sel, Enroll(s, id, n), id, n, ids, need) ==
              Seated(State(s.dockers, f.0, NodeTaken(s.nodes, n, ids)), id, n, ids, f.1)
  {
    hide Filled;
    var f := Filled(t, sel, s.clusters, ids, need);
    assert [] + f.1 == f.1;
  }

  /** DockerBindClusters, with every table written once. */
  lemma BindToWritten(t: Topology, sel: Selector, s: State, id: string, n: int, m: nat, ids: seq<int>)
    requires id in s.dockers && n in s.nodes && ids == PickClusters(t, sel, n, NodeAt(s.nodes, n).occupied, m)
    ensures var f := Filled(t, sel, s.clusters, ids, Ceil(s.dockers[id].initial));
            BindTo(t, sel, s, id, n, m) == Seated(State(s.dockers, f.0, NodeTaken(s.nodes, n, ids)), id, n, ids, f.1)
  {
    SpreadIsBulk(t, sel, Enroll(s, id, n), id, n, ids, Ceil(s.dockers[id].initial));
    SeatEnrolled(t, sel, s, id, n, ids, Ceil(s.dockers[id].initial));
    hide FillAll;
    hide ClaimAll;
    hide PickClusters;
    hide Filled;
    hide Spreaded;
    hide Seated;
    hide NodeTaken;
    hide Ceil;
  }

  /** Entering the clusters without the cores is seating with the old cores and node. */
  lemma SeatWith(r: State, s: State, id: string, n: int, ids: seq<int>, xs: seq<int>)
    requires id in r.dockers && r.dockers == s.dockers
    ensures var d := r.dockers[id];
            var g := Seated(r, id, n, ids, xs);
            g.(dockers := g.dockers[id := g.dockers[id].(cpuSet := d.cpuSet, memSet := d.memSet)]) ==
              r.(dockers := r.dockers[id := d.(bind := d.bind + ids)])
  {
  }

  lemma BindWithIs(t: Topology, sel: Selector, s: State, id: string, n: int, m: nat, ok: bool)
    requires id in s.dockers
    ensures var r, d := BindTo(t, sel, s, id, n, m), s.dockers[id];
            BindWith(t, sel, s, id, n, m, ok) ==
              if ok then r else r.(dockers := r.dockers[id := r.dockers[id].(cpuSet := d.cpuSet, memSet := d.memSet)])
  {
    hide BindTo;
  }

  /** What binding a container to m clusters of node n relies on: it concerns the tables only. */
  ghost predicate CanBind(t: Topology, s: State, id: string, n: int, m: nat) {
    && id in s.dockers && t.IsNode(n) && n in s.nodes && t.Cores() > 0 && ClustersSplit(t, s, n)
    && s.dockers[id].initial > 0.0
    && m == CeilDiv(Ceil(s.dockers[id].initial), t.Cores()) <= |NodeAt(s.nodes, n).free|
    && forall c :: c in NodeAt(s.nodes, n).free ==> Untouched(t, s.clusters, c, [])
  }

  lemma BindReady(t: Topology, s: State, id: string, n: int, m: nat)
    requires CanBind(t, s, id, n, m)
    ensures id in s.dockers && n in s.nodes && ClustersSplit(t, s, n)
    ensures 0 < m <= |NodeAt(s.nodes, n).free| && (m - 1) * t.Cores() < Ceil(s.dockers[id].initial)
    ensures forall c :: c in NodeAt(s.nodes, n).free ==> Untouched(t, s.clusters, c, [])
  {
    LastShare(Ceil(s.dockers[id].initial), t.Cores());
  }

  lemma PartitionedCanBind(t: Topology, s: State, P: set<string>, id: string, n: int, m: nat)
    requires Partitioned(t, s, P) && id in s.dockers && t.IsNode(n) && s.dockers[id].initial > 0.0
    requires t.Cores() > 0 && m == CeilDiv(Ceil(s.dockers[id].initial), t.Cores()) <= |NodeAt(s.nodes, n).free|
    ensures CanBind(t, s, id, n, m)
  {
    forall c | c in NodeAt(s.nodes, n).free ensures Untouched(t, s.clusters, c, []) {
      ClusterPlace(t, s, P, n, c);
      CorePlace(t, s, P, c);
      assert ClusterAt(s.clusters, c).occupied == [];
    }
    assert ClustersSplit(t, s, n);
    hide Untouched;
  }

  // ---------- Start-up ----------

  /** The CPUs at positions start, start + 1, ... are those of cluster c. */
  ghost predicate CpuBlock(t: Topology, cpus: seq<int>, start: nat, c: int) {
    start + t.size <= |cpus| && forall i :: start <= i < start + t.size ==> cpus[i] == c * t.size + (i - start)
  }

  lemma CoresTimesSep(t: Topology)
    requires t.Uniform()
    ensures t.Cores() * t.Sep() == t.size
  {
  }

  /** The table holds the clusters below m, all free. */
  ghost predicate ClustersUpTo(t: Topology, clusters: map<int, Cluster>, m: int) {
    && (forall c :: c in clusters <==> 0 <= c < m)
    && forall c :: c in clusters ==> clusters[c] == Cluster(Siblings(t, c), t.PhysCores(c), [])
  }

  ghost predicate NodesUpTo(t: Topology, nodes: map<int, Node>, m: int) {
    && (forall n :: n in nodes <==> 0 <= n < m)
    && forall n :: n in nodes ==> nodes[n] == Node(t.ClusterIds(n), [])
  }

  lemma OneMoreCluster(t: Topology, clusters: map<int, Cluster>, m: int)
    requires m >= 0 && ClustersUpTo(t, clusters, m)
    ensures ClustersUpTo(t, clusters[m := Cluster(Siblings(t, m), t.PhysCores(m), [])], m + 1)
  {
  }

  lemma StartReached(t: Topology, clusters: map<int, Cluster>, nodes: map<int, Node>)
    requires ClustersUpTo(t, clusters, t.nodes * t.perNode) && NodesUpTo(t, nodes, t.nodes)
    ensures State(map[], clusters, nodes) == Start(t)
  {
    assert clusters == StartClusters(t, t.nodes * t.perNode);
    assert nodes == StartNodes(t, t.nodes);
  }

  /** The j-th run of `size` CPUs of a node is cluster i * perNode + j. */
  lemma BlockAt(t: Topology, i: nat, j: nat)
    requires t.Uniform() && j < t.perNode
    ensures j * t.size + t.size <= |t.NodeCpus(i)|
    ensures t.NodeCpus(i)[j * t.size] / t.size == i * t.perNode + j >= 0
    ensures CpuBlock(t, t.NodeCpus(i), j * t.size, i * t.perNode + j)
  {
    MulLe(j + 1, t.perNode, t.size);
    assert (j + 1) * t.size == j * t.size + t.size;
    assert i * (t.perNode * t.size) + j * t.size == (i * t.perNode + j) * t.size by {
      ScaleSum(i, t.perNode, j, t.size);
    }
    DivMul(i * t.perNode + j, t.size);
    assert j * t.size >= 0;
  }

  lemma ScaleSum(i: int, m: int, j: int, z: int)
    ensures i * (m * z) + j * z == (i * m + j) * z
  {
  }
}
