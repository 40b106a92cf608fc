/** Choosing idle clusters and idle CPUs from recent counters (cluster_selector.cpp). */
module ClusterSelection {
  import opened Seqs
  import opened Topologies

  const UINT64_LIMIT: nat := 0x1_0000_0000_0000_0000
  const UINT64_MAX: nat := UINT64_LIMIT - 1
  const L3C_HIT_QUEUE_LENGTH: nat := 10

  /** A snapshot of the counters the selectors read; absent entries read as zero. */
  datatype Selector = Selector(load: map<int, real>, names: map<int, string>, sums: map<string, nat>) {
    function Load(cpu: int): real {
      if cpu in load then load[cpu] else 0.0
    }

    function Heat(cluster: int): nat {
      var name := if cluster in names then names[cluster] else "";
      if name in sums then sums[name] else 0
    }

    /** No CPU is recorded as fully loaded and no counter sits at the largest 64-bit value. */
    ghost predicate Calm() {
      (forall cpu :: Load(cpu) < 100.0) && (forall c :: Heat(c) < UINT64_MAX)
    }
  }

  /** The first unused index among the first n whose value is below the bound and smallest, or -1. */
  function FirstMin(v: seq<real>, used: seq<bool>, n: nat, bound: real): (r: int)
    requires n <= |v| && n <= |used|
    ensures -1 <= r < n
    ensures r >= 0 ==> !used[r] && v[r] < bound
    ensures r >= 0 ==> forall j :: 0 <= j < n && !used[j] ==> if j < r then v[r] < v[j] else v[r] <= v[j]
    ensures r < 0 ==> forall j :: 0 <= j < n && !used[j] ==> bound <= v[j]
  {
    if n == 0 then -1
    else
      var r := FirstMin(v, used, n - 1, bound);
      if !used[n - 1] && v[n - 1] < (if r < 0 then bound else v[r]) then n - 1 else r
  }

  function LoadRow(t: Topology, sel: Selector, cluster: int): seq<real> {
    seq(t.size, j => sel.Load(cluster * t.size + j))
  }

  function HeatRow(t: Topology, sel: Selector, node: int): seq<real> {
    seq(t.perNode, j => sel.Heat(node * t.perNode + j) as real)
  }

  /** Which CPUs of a cluster may not be chosen. */
  function CpuUsedRow(t: Topology, cluster: int, avail: set<int>): (r: seq<bool>)
    ensures |r| == t.size
  {
    seq(t.size, j => cluster * t.size + j !in avail)
  }

  function ClusterUsedRow(t: Topology, node: int, occupied: seq<int>): (r: seq<bool>)
    ensures |r| == t.perNode
  {
    seq(t.perNode, j => node * t.perNode + j in occupied)
  }

  /** The choice of SelectIdleCpuFromCluster: the least loaded CPU below 100, else the cluster's first CPU. */
  function NextCpu(t: Topology, sel: Selector, cluster: int, avail: set<int>): int {
    var r := FirstMin(LoadRow(t, sel, cluster), CpuUsedRow(t, cluster, avail), t.size, 100.0);
    cluster * t.size + (if r < 0 then 0 else r)
  }

  /** The choice of SelectIdleCluster: the cluster with the smallest counter, or -1. */
  function NextCluster(t: Topology, sel: Selector, node: int, occupied: seq<int>): int {
    var r := FirstMin(HeatRow(t, sel, node), ClusterUsedRow(t, node, occupied), t.perNode, UINT64_MAX as real);
    if r < 0 then -1 else node * t.perNode + r
  }

  /** m CPUs chosen one after the other. */
  function PickCpus(t: Topology, sel: Selector, cluster: int, avail: set<int>, m: nat): (r: seq<int>)
    ensures |r| == m
  {
    if m == 0 then []
    else
      var x := NextCpu(t, sel, cluster, avail);
      [x] + PickCpus(t, sel, cluster, avail - {x}, m - 1)
  }

  /** m clusters chosen one after the other. */
  function PickClusters(t: Topology, sel: Selector, node: int, occupied: seq<int>, m: nat): (r: seq<int>)
    ensures |r| == m
    decreases m
  {
    if m == 0 then []
    else
      var c := NextCluster(t, sel, node, occupied);
      [c] + PickClusters(t, sel, node, occupied + [c], m - 1)
  }

  // ---------- What the choices are worth ----------

  ghost predicate InCluster(t: Topology, cluster: int, avail: set<int>) {
    forall x :: x in avail ==> cluster * t.size <= x < cluster * t.size + t.size
  }

  ghost function Below100(sel: Selector, avail: set<int>): set<int> {
    set x | x in avail && sel.Load(x) < 100.0
  }

  /** How many distinct CPUs repeated selection can deliver: those below 100, and the fallback CPU once. */
  ghost function Capacity(t: Topology, sel: Selector, cluster: int, avail: set<int>): nat {
    var first := cluster * t.size;
    |Below100(sel, avail)| + (if first in avail && sel.Load(first) >= 100.0 then 1 else 0)
  }

  /** The single choice: the first of the least loaded available CPUs when one is below 100, the first CPU otherwise. */
  lemma NextCpuMeaning(t: Topology, sel: Selector, cluster: int, avail: set<int>)
    requires InCluster(t, cluster, avail)
    ensures var x := NextCpu(t, sel, cluster, avail);
            if Below100(sel, avail) == {} then x == cluster * t.size
            else x in Below100(sel, avail) && forall y :: y in avail ==> if y < x then sel.Load(x) < sel.Load(y) else sel.Load(x) <= sel.Load(y)
  {
    var used, row := CpuUsedRow(t, cluster, avail), LoadRow(t, sel, cluster);
    var r := FirstMin(row, used, t.size, 100.0);
    forall y | y in avail ensures var j := y - cluster * t.size; 0 <= j < t.size && !used[j] && row[j] == sel.Load(y) {
    }
    if r >= 0 {
      assert cluster * t.size + r in Below100(sel, avail);
    } else {
      assert Below100(sel, avail) == {};
    }
  }

  /** Repeated selection yields distinct available CPUs exactly when it is asked for no more than the capacity. */
  lemma {:induction false} PickCpusExact(t: Topology, sel: Selector, cluster: int, avail: set<int>, m: nat)
    requires InCluster(t, cluster, avail)
    ensures var p := PickCpus(t, sel, cluster, avail, m);
            (NoDup(p) && forall x :: x in p ==> x in avail) <==> m <= Capacity(t, sel, cluster, avail)
    decreases m
  {
    if m > 0 {
      var x := NextCpu(t, sel, cluster, avail);
      var rest := PickCpus(t, sel, cluster, avail - {x}, m - 1);
      var p := [x] + rest;
      assert p == PickCpus(t, sel, cluster, avail, m);
      NextCpuMeaning(t, sel, cluster, avail);
      PickCpusExact(t, sel, cluster, avail - {x}, m - 1);
      NoDupAppend([x], rest);
      if x in avail {
        assert Below100(sel, avail - {x}) == Below100(sel, avail) - {x};
        assert p[0] == x && forall y :: y in rest ==> y in p;
      } else {
        assert p[0] == x && x in p;
      }
    }
  }

  /** On a calm machine any request within the free cores is served by distinct free cores. */
  lemma PickCpusCalm(t: Topology, sel: Selector, cluster: int, free: seq<int>, m: nat)
    requires sel.Calm() && NoDup(free) && m <= |free|
    requires InCluster(t, cluster, SetOf(free))
    ensures var p := PickCpus(t, sel, cluster, SetOf(free), m); NoDup(p) && forall x :: x in p ==> x in free
  {
    SetOfSize(free);
    assert Below100(sel, SetOf(free)) == SetOf(free);
    PickCpusExact(t, sel, cluster, SetOf(free), m);
  }

  /** A concrete failure outside that capacity: with both cores of a cluster fully loaded, one CPU is chosen twice. */
  lemma FullyLoadedClusterFails()
    ensures PickCpus(Topology(1, 1, 2, false), Selector(map[0 := 100.0, 1 := 100.0], map[], map[]), 0, {0, 1}, 2) == [0, 0]
  {
    var t, sel := Topology(1, 1, 2, false), Selector(map[0 := 100.0, 1 := 100.0], map[], map[]);
    NextCpuMeaning(t, sel, 0, {0, 1});
    NextCpuMeaning(t, sel, 0, {0, 1} - {0});
    assert PickCpus(t, sel, 0, {0, 1} - {0}, 1) == [0] + PickCpus(t, sel, 0, {0, 1} - {0} - {0}, 0);
  }

  function SetOf<T(==)>(s: seq<T>): set<T> {
    set x | x in s
  }

  lemma {:induction false} SetOfSize<T(!new)>(s: seq<T>)
    requires NoDup(s)
    ensures |SetOf(s)| == |s|
  {
    if |s| > 0 {
      SetOfSize(Init(s));
      InitLast(s);
      assert Last(s) !in Init(s);
      assert SetOf(s) == SetOf(Init(s)) + {Last(s)};
    }
  }

  /** A chosen cluster is one of the node's, not occupied, and has the smallest counter of those. */
  lemma NextClusterMeaning(t: Topology, sel: Selector, node: int, occupied: seq<int>)
    requires sel.Calm()
    ensures var c := NextCluster(t, sel, node, occupied);
            if forall k :: k in t.ClusterIds(node) ==> k in occupied then c == -1
            else c in t.ClusterIds(node) && c !in occupied &&
                 forall k :: k in t.ClusterIds(node) && k !in occupied ==> sel.Heat(c) <= sel.Heat(k)
  {
    ClusterIdsFacts(t, node);
    var used, row := ClusterUsedRow(t, node, occupied), HeatRow(t, sel, node);
    var base, r := node * t.perNode, FirstMin(row, used, t.perNode, UINT64_MAX as real);
    assert forall j :: 0 <= j < t.perNode ==> (used[j] <==> base + j in occupied);
    assert forall j :: 0 <= j < t.perNode ==> row[j] == sel.Heat(base + j) as real;
    if r < 0 {
      forall k | k in t.ClusterIds(node) ensures k in occupied {
        assert used[k - base];
      }
    } else {
      assert base + r in t.ClusterIds(node) && base + r !in occupied;
      forall k | k in t.ClusterIds(node) && k !in occupied ensures sel.Heat(base + r) <= sel.Heat(k) {
        assert !used[k - base] && row[r] <= row[k - base];
      }
    }
  }

  /** While the node has free clusters, repeated selection yields that many distinct free ones. */
  lemma {:induction false} PickClustersFree(t: Topology, sel: Selector, node: int, occupied: seq<int>, free: seq<int>, m: nat)
    requires sel.Calm() && NoDup(free) && m <= |free|
    requires forall c :: c in t.ClusterIds(node) && c !in occupied ==> c in free
    requires forall c :: c in free ==> c in t.ClusterIds(node) && c !in occupied
    ensures var p := PickClusters(t, sel, node, occupied, m); NoDup(p) && forall c :: c in p ==> c in free
    decreases m
  {
    if m > 0 {
      var c := NextCluster(t, sel, node, occupied);
      var rest := PickClusters(t, sel, node, occupied + [c], m - 1);
      NextClusterIsFree(t, sel, node, occupied, free);
      var free' := Without(free, [c]);
      assert NoDup(free') && |free'| == |free| - 1 by { WithoutBag(free, [c]); }
      assert forall k :: k in occupied + [c] <==> k in occupied || k == c;
      PickClustersFree(t, sel, node, occupied + [c], free', m - 1);
      assert forall k :: k in rest ==> k in free && k != c;
      NoDupAppend([c], rest);
    }
  }

  lemma NextClusterIsFree(t: Topology, sel: Selector, node: int, occupied: seq<int>, free: seq<int>)
    requires sel.Calm() && |free| > 0
    requires forall c :: c in t.ClusterIds(node) && c !in occupied ==> c in free
    requires forall c :: c in free ==> c in t.ClusterIds(node) && c !in occupied
    ensures NextCluster(t, sel, node, occupied) in free
  {
    var f := free[0];
    assert f in free;
    NextClusterMeaning(t, sel, node, occupied);
  }

  // ---------- The selector object ----------

  /** The counters kept after `count` was recorded: at most the last ten. */
  function PushCount(window: seq<nat>, count: nat): seq<nat> {
    var w := window + [count];
    if |w| > L3C_HIT_QUEUE_LENGTH then w[1..] else w
  }

  function Total(w: seq<nat>): nat {
    if |w| == 0 then 0 else Total(Init(w)) + Last(w)
  }

  function LastTen(all: seq<nat>): seq<nat> {
    if |all| <= L3C_HIT_QUEUE_LENGTH then all else all[|all| - L3C_HIT_QUEUE_LENGTH..]
  }

  /** Pushing onto the window of everything seen so far is the window of one more count. */
  lemma PushIsLastTen(all: seq<nat>, count: nat)
    ensures PushCount(LastTen(all), count) == LastTen(all + [count])
  {
  }

  lemma {:induction false} TotalDropFirst(w: seq<nat>)
    requires |w| > 0
    ensures Total(w) == w[0] + Total(w[1..])
  {
    if |w| > 1 {
      TotalDropFirst(Init(w));
      assert Init(w)[1..] == Init(w[1..]);
    }
  }

  /** Reduction to 64 bits. */
  function Wrap(x: int): nat {
    x % UINT64_LIMIT
  }

  /** The running sum after a count is added and the oldest one, if any, is subtracted, both modulo 2^64. */
  function NextSum(window: seq<nat>, sum: nat, count: nat): nat {
    var added := Wrap(sum + count);
    if |window| + 1 > L3C_HIT_QUEUE_LENGTH then Wrap(added - (window + [count])[0]) else added
  }

  lemma WrapAddSubtract(total: nat, count: nat, front: nat)
    ensures Wrap(Wrap(total) + count) == Wrap(total + count)
    ensures Wrap(Wrap(total + count) - front) == Wrap(total + count - front)
  {
  }

  /** The incremental 64-bit sum is the total of the new window. */
  lemma NextSumIsTotal(window: seq<nat>, sum: nat, count: nat)
    requires sum == Wrap(Total(window))
    ensures NextSum(window, sum, count) == Wrap(Total(PushCount(window, count)))
  {
    var w := window + [count];
    assert Init(w) == window;
    assert Total(w) == Total(window) + count;
    TotalDropFirst(w);
    WrapAddSubtract(Total(window), count, w[0]);
  }

  function WindowIn(windows: map<string, seq<nat>>, name: string): seq<nat> {
    if name in windows then windows[name] else []
  }

  function SumIn(sums: map<string, nat>, name: string): nat {
    if name in sums then sums[name] else 0
  }

  /** Every recorded sum is the 64-bit total of its window. */
  ghost predicate SumsMatch(windows: map<string, seq<nat>>, sums: map<string, nat>) {
    forall name :: SumIn(sums, name) == Wrap(Total(WindowIn(windows, name)))
  }

  lemma SumsMatchUpdate(windows: map<string, seq<nat>>, sums: map<string, nat>, name: string, w: seq<nat>, sum: nat)
    requires SumsMatch(windows, sums) && sum == Wrap(Total(w))
    ensures SumsMatch(windows[name := w], sums[name := sum])
  {
    forall other {:trigger SumIn(sums, other)} ensures SumIn(sums[name := sum], other) == Wrap(Total(WindowIn(windows[name := w], other))) {
      assert SumIn(sums, other) == Wrap(Total(WindowIn(windows, other)));
    }
  }

  lemma SumsMatchAt(windows: map<string, seq<nat>>, sums: map<string, nat>, name: string)
    requires SumsMatch(windows, sums)
    ensures SumIn(sums, name) == Wrap(Total(WindowIn(windows, name)))
  {
  }

  ghost predicate WindowsMatch(windows: map<string, seq<nat>>, counts: map<string, seq<nat>>) {
    forall name :: WindowIn(windows, name) == LastTen(WindowIn(counts, name))
  }

  lemma WindowsPush(windows: map<string, seq<nat>>, counts: map<string, seq<nat>>, name: string, count: nat)
    requires WindowsMatch(windows, counts)
    ensures WindowsMatch(windows[name := PushCount(WindowIn(windows, name), count)], counts[name := WindowIn(counts, name) + [count]])
  {
    PushIsLastTen(WindowIn(counts, name), count);
    hide LastTen;
    hide PushCount;
    var w, all := windows[name := PushCount(WindowIn(windows, name), count)], counts[name := WindowIn(counts, name) + [count]];
    forall other ensures WindowIn(w, other) == LastTen(WindowIn(all, other)) {
      assert WindowIn(windows, other) == LastTen(WindowIn(counts, other));
    }
  }

  /** A cluster's counter is the 64-bit total of the last ten counts of its L3 cache; a CPU's load is the one recorded last. */
  lemma ViewMeaning(c: ClusterSelector, cluster: int, cpu: int)
    requires c.Valid()
    ensures var name := if cluster in c.clusterToL3c then c.clusterToL3c[cluster] else "";
            var all := if name in c.counts then c.counts[name] else [];
            c.View().Heat(cluster) == Total(if |all| <= 10 then all else all[|all| - 10..]) % 0x1_0000_0000_0000_0000
    ensures c.View().Load(cpu) == if cpu in c.cpuLoadMap then c.cpuLoadMap[cpu] else 0.0
  {
    var name := if cluster in c.clusterToL3c then c.clusterToL3c[cluster] else "";
    assert SumIn(c.scclL3cSum, name) == Wrap(Total(WindowIn(c.scclL3c, name)));
    assert WindowIn(c.scclL3c, name) == LastTen(WindowIn(c.counts, name));
    hide Total;
  }

  class ClusterSelector {
    const topology: Topology
    const l3cNameList: seq<string>
    const clusterToL3c: map<int, string>
    var scclL3c: map<string, seq<nat>>
    var scclL3cSum: map<string, nat>
    var cpuLoadMap: map<int, real>
    /** All counts recorded so far. */
    ghost var counts: map<string, seq<nat>>

    /** Each window holds the last ten counts, and each sum is their 64-bit total. */
    ghost predicate Valid()
      reads this
    {
      SumsMatch(scclL3c, scclL3cSum) && WindowsMatch(scclL3c, counts)
    }

    constructor (topology: Topology, names: seq<string>, clusterToL3c: map<int, string>)
      ensures this.topology == topology && l3cNameList == names && this.clusterToL3c == clusterToL3c
      ensures scclL3c == map[] && scclL3cSum == map[] && cpuLoadMap == map[] && Valid() && counts == map[]
    {
      this.topology, l3cNameList, this.clusterToL3c := topology, names, clusterToL3c;
      scclL3c, scclL3cSum, cpuLoadMap, counts := map[], map[], map[], map[];
    }

    ghost function View(): Selector
      reads this
    {
      Selector(cpuLoadMap, clusterToL3c, scclL3cSum)
    }

    /** Records one count: the window keeps the last ten and the sum stays their 64-bit total. */
    method SetL3cCount(count: nat, index: nat)
      requires index < |l3cNameList| && Valid()
      modifies this
      ensures Valid()
      ensures counts == old(counts)[l3cNameList[index] := WindowIn(old(counts), l3cNameList[index]) + [count]]
      ensures scclL3c == old(scclL3c)[l3cNameList[index] := PushCount(WindowIn(old(scclL3c), l3cNameList[index]), count)]
      ensures cpuLoadMap == old(cpuLoadMap)
    {
      hide SumsMatch;
      hide WindowsMatch;
      hide Total;
      var name := l3cNameList[index];
      ghost var before := WindowIn(scclL3c, name);
      var queue := WindowIn(scclL3c, name) + [count];
      var sum: int := Wrap(SumIn(scclL3cSum, name) + count);
      if |queue| > L3C_HIT_QUEUE_LENGTH {
        sum := Wrap(sum - queue[0]);
        queue := queue[1..];
      }
      assert queue == PushCount(before, count) && sum == NextSum(before, SumIn(scclL3cSum, name), count);
      SumsMatchAt(scclL3c, scclL3cSum, name);
      NextSumIsTotal(before, SumIn(scclL3cSum, name), count);
      SumsMatchUpdate(scclL3c, scclL3cSum, name, queue, sum);
      WindowsPush(scclL3c, counts, name, count);
      scclL3c := scclL3c[name := queue];
      scclL3cSum := scclL3cSum[name := sum];
      counts := counts[name := WindowIn(counts, name) + [count]];
    }

    method SelectIdleCluster(node: int, used: seq<bool>) returns (cluster: int)
      requires topology.Uniform() && |used| == topology.perNode
      ensures !topology.IsNode(node) ==> cluster == -1
      ensures topology.IsNode(node) ==>
                var r := FirstMin(HeatRow(topology, View(), node), used, topology.perNode, UINT64_MAX as real);
                cluster == if r < 0 then -1 else node * topology.perNode + r
    {
      var nodeNum := topology.nodes;
      if node < 0 || node >= nodeNum {
        return -1;
      }
      var clusterNum := topology.nodes * topology.perNode;
      DivMul(topology.perNode, nodeNum);
      var numaClusterNum := clusterNum / nodeNum;
      var clusterIndexBegin := numaClusterNum * node;
      var clusterIndexEnd := clusterIndexBegin + numaClusterNum - 1;
      var minVal := UINT64_MAX;
      cluster := -1;
      ghost var sel := View();
      ghost var row := HeatRow(topology, sel, node);
      assert numaClusterNum == topology.perNode && clusterIndexBegin == node * topology.perNode;
      var i := clusterIndexBegin;
      while i <= clusterIndexEnd && i - clusterIndexBegin < |used|
        invariant clusterIndexBegin <= i <= clusterIndexEnd + 1
        invariant var r := FirstMin(row, used, i - clusterIndexBegin, UINT64_MAX as real);
                  cluster == (if r < 0 then -1 else clusterIndexBegin + r) &&
                  minVal as real == (if r < 0 then UINT64_MAX as real else row[r])
        decreases clusterIndexEnd + 1 - i
      {
        var l3cName := if i in clusterToL3c then clusterToL3c[i] else "";
        var sum := if l3cName in scclL3cSum then scclL3cSum[l3cName] else 0;
        assert sum == sel.Heat(i);
        assert row[i - clusterIndexBegin] == sum as real;
        if minVal > sum && !used[i - clusterIndexBegin] {
          minVal := sum;
          cluster := i;
        }
        i := i + 1;
      }
    }

    method SelectIdleCpuFromCluster(clusterId: int, used: seq<bool>) returns (selectCpu: int)
      requires |used| == topology.size
      ensures var r := FirstMin(LoadRow(topology, View(), clusterId), used, topology.size, 100.0);
              selectCpu == clusterId * topology.size + (if r < 0 then 0 else r)
    {
      var clusterCpuNum := topology.size;
      var clusterCpuStart := clusterId * clusterCpuNum;
      selectCpu := clusterCpuStart;
      var minVal := 100.0;
      ghost var sel := View();
      ghost var row := LoadRow(topology, sel, clusterId);
      for i := 0 to |used|
        invariant var r := FirstMin(row, used, i, 100.0);
                  selectCpu == clusterCpuStart + (if r < 0 then 0 else r) &&
                  minVal == (if r < 0 then 100.0 else row[r])
      {
        if used[i] {
          continue;
        }
        var load := if clusterCpuStart + i in cpuLoadMap then cpuLoadMap[clusterCpuStart + i] else 0.0;
        assert load == sel.Load(clusterCpuStart + i);
        assert row[i] == load;
        if load < minVal {
          minVal := load;
          selectCpu := clusterCpuStart + i;
        }
      }
    }
  }
}
