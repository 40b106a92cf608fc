/** A uniform, contiguous machine: `nodes` NUMA nodes of `perNode` clusters of `size` logical CPUs. */
module Topologies {
  import opened Seqs

  datatype Topology = Topology(nodes: nat, perNode: nat, size: nat, smt: bool) {
    /** Distance between the first siblings of two neighbouring physical cores. */
    function Sep(): nat {
      if smt then 2 else 1
    }

    /** Physical cores per cluster. */
    function Cores(): nat {
      size / Sep()
    }

    predicate Uniform() {
      nodes > 0 && perNode > 0 && size > 0 && size % Sep() == 0
    }

    /** The logical CPUs of a node. */
    function NodeCpus(n: int): seq<int> {
      seq(perNode * size, k => n * (perNode * size) + k)
    }

    /** The cluster numbers of a node. */
    function ClusterIds(n: int): seq<int> {
      seq(perNode, j => n * perNode + j)
    }

    /** The first logical CPU of every physical core of a cluster. */
    function PhysCores(c: int): seq<int> {
      seq(Cores(), j => c * size + j * Sep())
    }

    predicate IsNode(n: int) {
      0 <= n < nodes
    }

    predicate IsCluster(c: int) {
      0 <= c < nodes * perNode
    }
  }

  lemma PhysCoresFacts(t: Topology, c: int)
    requires t.Uniform()
    ensures NoDup(t.PhysCores(c)) && |t.PhysCores(c)| == t.Cores() > 0
    ensures forall x :: x in t.PhysCores(c) ==> c * t.size <= x < c * t.size + t.size
  {
  }

  lemma ClusterIdsFacts(t: Topology, n: int)
    ensures NoDup(t.ClusterIds(n)) && |t.ClusterIds(n)| == t.perNode
    ensures forall c :: c in t.ClusterIds(n) <==> n * t.perNode <= c < n * t.perNode + t.perNode
  {
    forall c | n * t.perNode <= c < n * t.perNode + t.perNode ensures c in t.ClusterIds(n) {
      assert t.ClusterIds(n)[c - n * t.perNode] == c;
    }
  }

  /** Blocks of m consecutive numbers starting at multiples of m do not overlap. */
  lemma BlocksApart(a: int, b: int, m: nat, x: int)
    requires a * m <= x < a * m + m && b * m <= x < b * m + m
    ensures a == b
  {
    assert a * m + m == (a + 1) * m && b * m + m == (b + 1) * m;
    if a < b {
      MulLe(a + 1, b, m);
    } else if b < a {
      MulLe(b + 1, a, m);
    }
  }

  lemma MulLe(a: int, b: int, m: nat)
    requires a <= b
    ensures a * m <= b * m
  {
  }

  lemma NodeOfCluster(t: Topology, n: int, c: int)
    requires t.IsNode(n) && c in t.ClusterIds(n)
    ensures t.IsCluster(c)
  {
    ClusterIdsFacts(t, n);
    MulLe(0, n, t.perNode);
    MulLe(n + 1, t.nodes, t.perNode);
    assert n * t.perNode + t.perNode == (n + 1) * t.perNode;
  }

  /** A node's first CPU divided by the cluster size is its first cluster; its CPUs fill perNode clusters. */
  lemma FirstClusterOfNode(t: Topology, n: nat)
    requires t.Uniform()
    ensures |t.NodeCpus(n)| > 0
    ensures t.NodeCpus(n)[0] / t.size == n * t.perNode
    ensures |t.NodeCpus(n)| / t.size == t.perNode
  {
    assert t.perNode * t.size > 0;
    assert n * (t.perNode * t.size) == (n * t.perNode) * t.size;
    DivMul(n * t.perNode, t.size);
    DivMul(t.perNode, t.size);
  }

  lemma DivMul(a: int, m: int)
    requires m > 0
    ensures (a * m) / m == a
  {
    var q, r := (a * m) / m, (a * m) % m;
    assert q * m + r == a * m by { EuclidFact(a * m, m); }
    assert r == (a - q) * m by { Minus(a, q, m); }
    if a - q >= 1 {
      MulLe(1, a - q, m);
    } else if a - q <= -1 {
      MulLe(a - q, -1, m);
    }
  }

  lemma EuclidFact(x: int, m: int)
    requires m > 0
    ensures (x / m) * m + x % m == x && 0 <= x % m < m
  {
  }

  lemma Minus(a: int, q: int, m: int)
    ensures (a - q) * m == a * m - q * m
  {
  }
}
