/**
 * The cluster-affinity allocator on values (cluster_affinity_adapt.cpp). Each operation of the
 * allocator is a composition of four small moves: Grab cores, Claim a cluster, Drop a core and
 * Release a cluster.
 */
module ClusterSpec {
  import opened Seqs
  import opened Topologies
  import opened Ceilings
  import opened ClusterSelection

  datatype Cluster = Cluster(logical: seq<int>, free: seq<int>, occupied: seq<int>)

  datatype Node = Node(free: seq<int>, occupied: seq<int>)

  datatype Docker = Docker(
    bound: bool,
    lended: bool,
    usage: seq<real>,
    usageSum: real,
    cpuSet: seq<int>,
    memSet: seq<int>,
    bind: seq<int>,
    borrow: map<string, real>,
    initial: real,
    lend: real,
    current: real)

  datatype State = State(dockers: map<string, Docker>, clusters: map<int, Cluster>, nodes: map<int, Node>)

  /** Lookup with a default-constructed value, as operator[] of the source's maps. */
  function ClusterAt(clusters: map<int, Cluster>, c: int): Cluster {
    if c in clusters then clusters[c] else Cluster([], [], [])
  }

  function NodeAt(nodes: map<int, Node>, n: int): Node {
    if n in nodes then nodes[n] else Node([], [])
  }

  function HomeOf(d: Docker): int {
    if |d.memSet| > 0 then d.memSet[0] else 0
  }

  function NewestOf(d: Docker): int {
    if |d.bind| > 0 then Last(d.bind) else 0
  }

  // ---------- The four moves ----------

  /** Container id takes the cores xs of cluster c. */
  function Grab(s: State, id: string, c: int, xs: seq<int>): State
    requires id in s.dockers
  {
    var d, cl := s.dockers[id], ClusterAt(s.clusters, c);
    s.(dockers := s.dockers[id := d.(cpuSet := d.cpuSet + xs)],
       clusters := s.clusters[c := cl.(free := Without(cl.free, xs), occupied := cl.occupied + xs)])
  }

  /** Container id takes cluster c of node n, none of whose cores it holds yet. */
  function Claim(s: State, id: string, n: int, c: int): State
    requires id in s.dockers
  {
    var d, nd := s.dockers[id], NodeAt(s.nodes, n);
    s.(dockers := s.dockers[id := d.(bind := d.bind + [c])],
       nodes := s.nodes[n := Node(Without(nd.free, [c]), nd.occupied + [c])])
  }

  /** Container id gives back the newest core of its newest cluster. */
  function Drop(s: State, id: string): State
    requires id in s.dockers && |s.dockers[id].bind| > 0
    requires |ClusterAt(s.clusters, Last(s.dockers[id].bind)).occupied| > 0
  {
    var d := s.dockers[id];
    var c := Last(d.bind);
    var cl := ClusterAt(s.clusters, c);
    var x := Last(cl.occupied);
    s.(dockers := s.dockers[id := d.(cpuSet := Without(d.cpuSet, [x]))],
       clusters := s.clusters[c := cl.(free := cl.free + [x], occupied := Init(cl.occupied))])
  }

  /** Container id gives back its newest cluster. */
  function Release(s: State, id: string): State
    requires id in s.dockers && |s.dockers[id].bind| > 0
  {
    var d := s.dockers[id];
    var c, n := Last(d.bind), HomeOf(d);
    var nd := NodeAt(s.nodes, n);
    s.(dockers := s.dockers[id := d.(bind := Init(d.bind))],
       nodes := s.nodes[n := Node(nd.free + [c], Without(nd.occupied, [c]))])
  }

  // ---------- Compositions ----------

  function ClaimAll(s: State, id: string, n: int, ids: seq<int>): (r: State)
    requires id in s.dockers
    ensures r.dockers.Keys == s.dockers.Keys
    decreases |ids|
  {
    if |ids| == 0 then s else ClaimAll(Claim(s, id, n, ids[0]), id, n, ids[1..])
  }

  /** All free cores of every cluster but the last, and the remaining `need` from the last. */
  function FillAll(t: Topology, sel: Selector, s: State, id: string, ids: seq<int>, need: int): (r: State)
    requires id in s.dockers
    ensures r.dockers.Keys == s.dockers.Keys
    decreases |ids|
  {
    if |ids| == 0 then s
    else
      var free := ClusterAt(s.clusters, ids[0]).free;
      if |ids| == 1 then Grab(s, id, ids[0], PickFrom(t, sel, ids[0], free, need))
      else FillAll(t, sel, Grab(s, id, ids[0], free), id, ids[1..], need - |free|)
  }

  function PickFrom(t: Topology, sel: Selector, c: int, free: seq<int>, need: int): seq<int> {
    PickCpus(t, sel, c, SetOf(free), if need < 0 then 0 else need)
  }

  function SetLimit(s: State, id: string, limit: real): State
    requires id in s.dockers
  {
    s.(dockers := s.dockers[id := s.dockers[id].(current := limit)])
  }

  /** How many whole CPUs an added limit brings. */
  function Extra(d: Docker, limit: real): int {
    Ceil(d.current + limit) - Ceil(d.current)
  }

  /** How many whole CPUs a withdrawn limit frees. */
  function Surplus(d: Docker, limit: real): int {
    Ceil(d.current) - Ceil(d.current - limit)
  }

  /** Free cores left in the container's newest cluster. */
  function Spare(s: State, d: Docker): nat {
    |ClusterAt(s.clusters, NewestOf(d)).free|
  }

  /** How many new clusters `need` more CPUs take. */
  function MoreClusters(t: Topology, s: State, d: Docker, need: int): nat
    requires t.Uniform()
  {
    var rest := need - Spare(s, d);
    PhysCoresFacts(t, 0);
    if rest <= 0 then 0 else CeilDiv(rest, t.Cores())
  }

  /** How many new clusters an added limit needs. */
  function NewClusters(t: Topology, s: State, id: string, limit: real): nat
    requires t.Uniform() && id in s.dockers
  {
    MoreClusters(t, s, s.dockers[id], Extra(s.dockers[id], limit))
  }

  /** The cpuset part of DockerAddCpuLimitComm. */
  function Widen(t: Topology, sel: Selector, s: State, id: string, need: int): (r: State)
    requires t.Uniform() && id in s.dockers
    ensures r.dockers.Keys == s.dockers.Keys
  {
    var d := s.dockers[id];
    var c, n := NewestOf(d), HomeOf(d);
    var free := ClusterAt(s.clusters, c).free;
    if |free| >= need then Grab(s, id, c, PickFrom(t, sel, c, free, need))
    else
      PhysCoresFacts(t, 0);
      var rest := need - |free|;
      var ids := PickClusters(t, sel, n, NodeAt(s.nodes, n).occupied, CeilDiv(rest, t.Cores()));
      FillAll(t, sel, ClaimAll(Grab(s, id, c, free), id, n, ids), id, ids, rest)
  }

  /** DockerAddCpuLimitComm. */
  function AddLimit(t: Topology, sel: Selector, s: State, id: string, limit: real): (r: State)
    requires t.Uniform() && id in s.dockers
    ensures r.dockers.Keys == s.dockers.Keys
  {
    var d := s.dockers[id];
    SetLimit(Widen(t, sel, s, id, Extra(d, limit)), id, d.current + limit)
  }

  /** Gives back `need` cores, newest first, releasing a cluster when none of its cores is held. */
  function GiveBack(s: State, id: string, need: nat): (r: State)
    requires id in s.dockers
    ensures r.dockers.Keys == s.dockers.Keys
    decreases need + |s.dockers[id].bind|
  {
    var d := s.dockers[id];
    if need == 0 || |d.bind| == 0 then s
    else if |ClusterAt(s.clusters, Last(d.bind)).occupied| == 0 then GiveBack(Release(s, id), id, need)
    else GiveBack(Drop(s, id), id, need - 1)
  }

  /** DockerMinusCpuLimitComm. */
  function MinusLimit(s: State, id: string, limit: real): (r: State)
    requires id in s.dockers
    ensures r.dockers.Keys == s.dockers.Keys
  {
    var d := s.dockers[id];
    var need := Surplus(d, limit);
    SetLimit(GiveBack(s, id, if need < 0 then 0 else need), id, d.current - limit)
  }

  /** The container starts with an empty cpuset on node n. */
  function Enroll(s: State, id: string, n: int): State
    requires id in s.dockers
  {
    s.(dockers := s.dockers[id := s.dockers[id].(cpuSet := [], memSet := [n])])
  }

  /** DockerBindClusters with m clusters on node n, when its commands succeed. */
  function BindTo(t: Topology, sel: Selector, s: State, id: string, n: int, m: nat): (r: State)
    requires id in s.dockers
    ensures r.dockers.Keys == s.dockers.Keys
  {
    var ids := PickClusters(t, sel, n, NodeAt(s.nodes, n).occupied, m);
    FillAll(t, sel, ClaimAll(Enroll(s, id, n), id, n, ids), id, ids, Ceil(s.dockers[id].initial))
  }

  /** The container's new cores and node are written only if the bind commands succeed; the tables change in any case. */
  function BindWith(t: Topology, sel: Selector, s: State, id: string, n: int, m: nat, ok: bool): (r: State)
    requires id in s.dockers
    ensures r.dockers.Keys == s.dockers.Keys
  {
    var r, d := BindTo(t, sel, s, id, n, m), s.dockers[id];
    if ok then r else r.(dockers := r.dockers[id := r.dockers[id].(cpuSet := d.cpuSet, memSet := d.memSet)])
  }
}
