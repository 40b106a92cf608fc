/** The allocator object, updating its tables in place as cluster_affinity_adapt.cpp does. */
module ClusterAffinity {
  import opened Seqs
  import opened Topologies
  import opened Ceilings
  import opened ClusterSelection
  import opened ClusterSpec
  import opened ClusterInvariant
  import opened ClusterSteps
  import opened ClusterRounds
  import opened ClusterSound
  import opened ClusterLedger
  import opened ClusterReturns
  import opened ClusterRuns
  import opened ClusterBulk
  import opened ClusterTurns
  import opened ClusterBinding

  class ClusterAffinityAdapt {
    const topology: Topology
    const clusterSelector: ClusterSelector
    var dockerInfos: map<string, Docker>
    var systemClusterInfo: map<int, Cluster>
    var numaClusterInfo: map<int, Node>

    ghost function S(): State
      reads this
    {
      State(dockerInfos, systemClusterInfo, numaClusterInfo)
    }

    ghost function Sel(): Selector
      reads clusterSelector
    {
      clusterSelector.View()
    }

    ghost predicate Ready() {
      clusterSelector.topology == topology && topology.Uniform()
    }

    constructor (topology: Topology, selector: ClusterSelector)
      ensures this.topology == topology && clusterSelector == selector
      ensures S() == State(map[], map[], map[])
    {
      this.topology, clusterSelector := topology, selector;
      dockerInfos, systemClusterInfo, numaClusterInfo := map[], map[], map[];
    }

    /** Marks every CPU of the cluster as used except its free cores. */
    method UsedCpus(clusterId: int) returns (used: seq<bool>)
      requires FreeInBlock(topology, systemClusterInfo, clusterId)
      ensures used == CpuUsedRow(topology, clusterId, SetOf(ClusterAt(systemClusterInfo, clusterId).free))
    {
      var free := ClusterAt(systemClusterInfo, clusterId).free;
      var clusterCpuStart := clusterId * topology.size;
      used := seq(topology.size, j => true);
      for i := 0 to |free|
        invariant |used| == topology.size
        invariant forall j :: 0 <= j < topology.size ==> (used[j] <==> clusterCpuStart + j !in free[..i])
      {
        assert free[i] in SetOf(free);
        used := used[free[i] - clusterCpuStart := false];
        assert free[..i + 1] == free[..i] + [free[i]];
      }
      assert free[..|free|] == free;
    }

    /** Picks `count` free cores of a cluster, one at a time. */
    method PickCores(clusterId: int, count: nat) returns (cpus: seq<int>)
      requires Ready() && FreeInBlock(topology, systemClusterInfo, clusterId)
      ensures cpus == PickFrom(topology, Sel(), clusterId, ClusterAt(systemClusterInfo, clusterId).free, count)
    {
      hide FreeInBlock;
      hide CpuUsedRow;
      ghost var avail := SetOf(ClusterAt(systemClusterInfo, clusterId).free);
      var used := UsedCpus(clusterId);
      cpus := [];
      assert avail - SetOf(cpus) == avail;
      ghost var sel := Sel();
      while |cpus| < count
        invariant |cpus| <= count && |used| == topology.size
        invariant used == CpuUsedRow(topology, clusterId, avail - SetOf(cpus))
        invariant cpus == PickCpus(topology, sel, clusterId, avail, |cpus|)
      {
        var cpu := clusterSelector.SelectIdleCpuFromCluster(clusterId, used);
        assert cpu == NextCpu(topology, sel, clusterId, avail - SetOf(cpus));
        hide LoadRow;
        hide PickCpus;
        hide NextCpu;
        PickCpusAppend(topology, sel, clusterId, avail, cpus, count);
        UseCpu(topology, clusterId, avail - SetOf(cpus), cpu);
        assert avail - SetOf(cpus + [cpu]) == avail - SetOf(cpus) - {cpu};
        used := used[cpu - clusterId * topology.size := true];
        cpus := cpus + [cpu];
      }
    }

    /** Moves `count` picked cores of a cluster from its free list to its occupied list. */
    method TakeCores(clusterId: int, count: nat, already: seq<int>) returns (cpus: seq<int>)
      requires Ready() && FreeInBlock(topology, systemClusterInfo, clusterId) && OutsideBlock(topology, clusterId, already)
      modifies this`systemClusterInfo
      ensures var cl := ClusterAt(old(systemClusterInfo), clusterId);
              && cpus == PickFrom(topology, Sel(), clusterId, cl.free, count)
              && systemClusterInfo == old(systemClusterInfo)[clusterId :=
                   cl.(free := Without(cl.free, cpus), occupied := cl.occupied + cpus)]
    {
      var cl := ClusterAt(systemClusterInfo, clusterId);
      cpus := PickCores(clusterId, count);
      var free := Without(cl.free, already + cpus);
      forall x | x in cl.free ensures x !in already {
        assert x in SetOf(cl.free);
      }
      OnlyPicked(cl.free, already, cpus);
      systemClusterInfo := systemClusterInfo[clusterId := cl.(free := free, occupied := cl.occupied + cpus)];
    }

    /** Moves all free cores of a cluster to its occupied list. */
    method TakeWhole(clusterId: int) returns (cpus: seq<int>)
      modifies this`systemClusterInfo
      ensures var cl := ClusterAt(old(systemClusterInfo), clusterId);
              && cpus == cl.free
              && systemClusterInfo == old(systemClusterInfo)[clusterId := cl.(free := [], occupied := cl.occupied + cl.free)]
    {
      var cl := ClusterAt(systemClusterInfo, clusterId);
      cpus := cl.free;
      systemClusterInfo := systemClusterInfo[clusterId := cl.(free := [], occupied := cl.occupied + cl.free)];
    }

    /** Fills the selected clusters: all of each but the last, the remaining cores from the last. */
    method FillClusters(ids: seq<int>, count: nat, already: seq<int>) returns (cpus: seq<int>)
      requires Ready() && |ids| > 0 && NoDup(ids)
      requires forall c :: c in ids ==> FreeInBlock(topology, systemClusterInfo, c) && OutsideBlock(topology, c, already)
      requires forall c :: c in ids ==> |ClusterAt(systemClusterInfo, c).free| == topology.Cores()
      requires (|ids| - 1) * topology.Cores() < count
      modifies this`systemClusterInfo
      ensures (systemClusterInfo, cpus) == Filled(topology, Sel(), old(systemClusterInfo), ids, count)
    {
      hide Filled;
      hide FreeInBlock;
      hide OutsideBlock;
      var needCpuCores: int := count;
      cpus := [];
      ghost var start, sel := systemClusterInfo, Sel();
      ghost var goal := Filled(topology, sel, start, ids, count);
      assert ids[0..] == ids && already + cpus == already && cpus + goal.1 == goal.1;
      for i := 0 to |ids| - 1
        invariant needCpuCores == count - i * topology.Cores()
        invariant goal == Prepend(cpus, Filled(topology, sel, systemClusterInfo, ids[i..], needCpuCores))
        invariant forall c :: c in ids[i..] ==>
                    ClusterAt(systemClusterInfo, c) == ClusterAt(start, c) && OutsideBlock(topology, c, already + cpus)
      {
        assert ids[i] in ids[i..] && ids[i] in ids;
        SameFree(topology, start, systemClusterInfo, ids[i]);
        StillOutside(topology, systemClusterInfo, ids[i..], already + cpus);
        FilledStep(topology, sel, systemClusterInfo, ids[i..], needCpuCores, cpus);
        assert ids[i..][1..] == ids[i + 1..];
        var taken := TakeWhole(ids[i]);
        needCpuCores := needCpuCores - |taken|;
        assert (i + 1) * topology.Cores() == i * topology.Cores() + topology.Cores();
        assert already + (cpus + taken) == already + cpus + taken;
        cpus := cpus + taken;
      }
      var last := ids[|ids| - 1];
      assert ids[|ids| - 1..] == [last];
      assert last in ids[|ids| - 1..] && last in ids;
      SameFree(topology, start, systemClusterInfo, last);
      FilledLast(topology, sel, systemClusterInfo, last, needCpuCores);
      var more := TakeCores(last, needCpuCores, already + cpus);
      cpus := cpus + more;
    }

    /** Marks the node's occupied clusters. */
    method UsedClusters(nid: int) returns (used: seq<bool>)
      requires Ready() && topology.IsNode(nid)
      requires forall c :: c in NodeAt(numaClusterInfo, nid).occupied ==> c in topology.ClusterIds(nid)
      ensures used == ClusterUsedRow(topology, nid, NodeAt(numaClusterInfo, nid).occupied)
    {
      FirstClusterOfNode(topology, nid);
      ClusterIdsFacts(topology, nid);
      var cpus, occupied := topology.NodeCpus(nid), NodeAt(numaClusterInfo, nid).occupied;
      var clusterBeginIndex, numaClusterNum := cpus[0] / topology.size, |cpus| / topology.size;
      used := seq(numaClusterNum, j => false);
      for i := 0 to |occupied|
        invariant |used| == topology.perNode
        invariant forall j :: 0 <= j < topology.perNode ==> (used[j] <==> clusterBeginIndex + j in occupied[..i])
      {
        assert occupied[i] in occupied;
        used := used[occupied[i] - clusterBeginIndex := true];
        assert occupied[..i + 1] == occupied[..i] + [occupied[i]];
      }
      assert occupied[..|occupied|] == occupied;
    }

    /** Selects `count` idle clusters of a node, one at a time. */
    method SelectClusters(nid: int, count: nat) returns (ids: seq<int>)
      requires Ready() && Sel().Calm() && topology.IsNode(nid)
      requires ClustersSplit(topology, S(), nid) && count <= |NodeAt(numaClusterInfo, nid).free|
      ensures ids == PickClusters(topology, Sel(), nid, NodeAt(numaClusterInfo, nid).occupied, count)
    {
      ghost var nd, sel := NodeAt(numaClusterInfo, nid), Sel();
      SplitFacts(topology, S(), nid);
      var used := UsedClusters(nid);
      FirstClusterOfNode(topology, nid);
      var clusterBeginIndex := topology.NodeCpus(nid)[0] / topology.size;
      hide ClustersSplit;
      hide ClusterUsedRow;
      ids := [];
      assert nd.occupied + ids == nd.occupied;
      while |ids| < count
        invariant |ids| <= count
        invariant ids == PickClusters(topology, sel, nid, nd.occupied, |ids|)
        invariant used == ClusterUsedRow(topology, nid, nd.occupied + ids)
      {
        var clusterId := clusterSelector.SelectIdleCluster(nid, used);
        assert clusterId == NextCluster(topology, sel, nid, nd.occupied + ids);
        hide NextCluster;
        hide PickClusters;
        hide HeatRow;
        PickClustersAppend(topology, sel, nid, nd.occupied, ids);
        PickClustersFree(topology, sel, nid, nd.occupied, nd.free, |ids| + 1);
        assert clusterId in ids + [clusterId];
        UseCluster(topology, nid, nd.occupied + ids, clusterId);
        used := used[clusterId - clusterBeginIndex := true];
        assert nd.occupied + ids + [clusterId] == nd.occupied + (ids + [clusterId]);
        ids := ids + [clusterId];
      }
    }

    /** Moves the selected clusters to the node's occupied list. */
    method OccupyClusters(nid: int, count: nat) returns (ids: seq<int>)
      requires Ready() && Sel().Calm() && topology.IsNode(nid)
      requires ClustersSplit(topology, S(), nid) && count <= |NodeAt(numaClusterInfo, nid).free|
      modifies this`numaClusterInfo
      ensures var nd := NodeAt(old(numaClusterInfo), nid);
              && ids == PickClusters(topology, Sel(), nid, nd.occupied, count)
              && numaClusterInfo == old(numaClusterInfo)[nid := Node(Without(nd.free, ids), nd.occupied + ids)]
    {
      hide PickClusters;
      SplitFacts(topology, S(), nid);
      ids := SelectClusters(nid, count);
      var nd := NodeAt(numaClusterInfo, nid);
      var occupied := nd.occupied + ids;
      OnlyNew(nd.free, nd.occupied, ids);
      numaClusterInfo := numaClusterInfo[nid := Node(Without(nd.free, occupied), occupied)];
    }

    /** Selects enough clusters of a node for `count` cores, and fills them. */
    method Spread(nid: int, clusterNum: nat, count: nat, already: seq<int>) returns (ids: seq<int>, cpus: seq<int>)
      requires Ready() && Sel().Calm() && topology.IsNode(nid) && ClustersSplit(topology, S(), nid)
      requires 0 < clusterNum <= |NodeAt(numaClusterInfo, nid).free| && (clusterNum - 1) * topology.Cores() < count
      requires forall c :: c in NodeAt(numaClusterInfo, nid).free ==> Untouched(topology, systemClusterInfo, c, already)
      modifies this`systemClusterInfo, this`numaClusterInfo
      ensures ids == PickClusters(topology, Sel(), nid, NodeAt(old(numaClusterInfo), nid).occupied, clusterNum)
      ensures numaClusterInfo == NodeTaken(old(numaClusterInfo), nid, ids)
      ensures (systemClusterInfo, cpus) == Filled(topology, Sel(), old(systemClusterInfo), ids, count)
    {
      ghost var nd := NodeAt(numaClusterInfo, nid);
      SplitFacts(topology, S(), nid);
      PickClustersFree(topology, Sel(), nid, nd.occupied, nd.free, clusterNum);
      ids := OccupyClusters(nid, clusterNum);
      assert forall c :: c in ids ==> Untouched(topology, systemClusterInfo, c, already);
      cpus := FillClusters(ids, count, already);
    }

    /** Takes the cores left in the newest cluster, and the rest from new clusters of the node. */
    method TakeBeyond(clusterId: int, nid: int, needBorrowCount: nat) returns (addCpuSet: seq<int>, addBindCluster: seq<int>)
      requires Ready() && Sel().Calm() && topology.IsNode(nid) && ClustersSplit(topology, S(), nid) && topology.Cores() > 0
      requires var free := ClusterAt(systemClusterInfo, clusterId).free;
               && |free| < needBorrowCount
               && CeilDiv(needBorrowCount - |free|, topology.Cores()) <= |NodeAt(numaClusterInfo, nid).free|
               && forall c :: c in NodeAt(numaClusterInfo, nid).free ==>
                    Untouched(topology, WholeTaken(systemClusterInfo, clusterId), c, free)
      modifies this`systemClusterInfo, this`numaClusterInfo
      ensures var free := ClusterAt(old(systemClusterInfo), clusterId).free;
              var rest := needBorrowCount - |free|;
              var f := Filled(topology, Sel(), WholeTaken(old(systemClusterInfo), clusterId), addBindCluster, rest);
              && addBindCluster == PickClusters(topology, Sel(), nid, NodeAt(old(numaClusterInfo), nid).occupied, CeilDiv(rest, topology.Cores()))
              && systemClusterInfo == f.0 && addCpuSet == free + f.1
              && numaClusterInfo == NodeTaken(old(numaClusterInfo), nid, addBindCluster)
    {
      hide Untouched;
      hide PickClusters;
      hide Filled;
      hide NodeTaken;
      var rest := needBorrowCount - |ClusterAt(systemClusterInfo, clusterId).free|;
      var cores := topology.size / topology.Sep();
      var needClusterNum := Ceil(rest as real / cores as real);
      CeilOfQuotient(rest as real, cores);
      LastShare(rest, cores);
      addCpuSet := TakeWhole(clusterId);
      SplitElsewhere(topology, old(S()), S(), nid);
      var more;
      addBindCluster, more := Spread(nid, needClusterNum, rest, addCpuSet);
      addCpuSet := addCpuSet + more;
    }

    /** The cpuset part of an addition. */
    method GrowCpuset(dockerId: string, needBorrowCount: int) returns (addCpuSet: seq<int>, addBindCluster: seq<int>)
      requires Ready() && Sel().Calm() && RoomFor(topology, S(), dockerId, needBorrowCount)
      modifies this`systemClusterInfo, this`numaClusterInfo
      ensures Widen(topology, Sel(), old(S()), dockerId, needBorrowCount) ==
                Extended(old(S()), dockerId, addCpuSet, addBindCluster, systemClusterInfo, numaClusterInfo)
    {
      hide Widen;
      hide Untouched;
      hide PickClusters;
      hide PickFrom;
      hide Filled;
      hide CeilDiv;
      ghost var s0, sel := S(), Sel();
      var d := dockerInfos[dockerId];
      var nid, clusterId := d.memSet[0], Last(d.bind);
      var clusterRemainCpus := |ClusterAt(systemClusterInfo, clusterId).free|;
      addCpuSet, addBindCluster := [], [];
      if clusterRemainCpus >= needBorrowCount {
        WidenNarrow(topology, sel, s0, dockerId, needBorrowCount);
        addCpuSet := TakeCores(clusterId, needBorrowCount, addCpuSet);
      } else {
        addCpuSet, addBindCluster := TakeBeyond(clusterId, nid, needBorrowCount);
        WidenBeyond(topology, sel, s0, dockerId, needBorrowCount, needBorrowCount - clusterRemainCpus, addBindCluster);
      }
    }

    /** Writes the extended cpuset, the new clusters and the new limit of a container. */
    method Enlarge(dockerId: string, addCpuSet: seq<int>, addBindCluster: seq<int>, limit: real)
      requires dockerId in dockerInfos
      modifies this`dockerInfos
      ensures S() == Enlarged(old(S()), dockerId, addCpuSet, addBindCluster, limit)
    {
      var d := dockerInfos[dockerId];
      dockerInfos := dockerInfos[dockerId := d.(cpuSet := d.cpuSet + addCpuSet, bind := d.bind + addBindCluster,
                                                current := d.current + limit)];
    }

    /** DockerAddCpuLimitComm: grows a container's limit and, by whole CPUs, its cpuset. */
    method DockerAddCpuLimitComm(dockerId: string, limit: real, succeeds: bool) returns (ok: bool)
      requires Ready() && Sel().Calm() && CanAdd(topology, S(), dockerId, limit)
      modifies this
      ensures S() == AddLimit(topology, Sel(), old(S()), dockerId, limit) && ok == succeeds
    {
      ghost var s0, sel := S(), Sel();
      AddReady(topology, s0, dockerId, limit);
      hide CanAdd;
      hide RoomFor;
      hide Widen;
      hide Extended;
      hide AddLimit;
      hide Enlarged;
      hide Ceil;
      var current := dockerInfos[dockerId].current;
      var needBorrowCount: int := Ceil(current + limit) - Ceil(current);
      var addCpuSet, addBindCluster := GrowCpuset(dockerId, needBorrowCount);
      AddLimitWritten(topology, sel, s0, dockerId, limit, addCpuSet, addBindCluster, systemClusterInfo, numaClusterInfo);
      Enlarge(dockerId, addCpuSet, addBindCluster, limit);
      return succeeds;
    }

    /** Returns the newest core of a cluster to its free list. */
    method FreeCore(clusterId: int) returns (cpu: int)
      requires |ClusterAt(systemClusterInfo, clusterId).occupied| > 0
      modifies this`systemClusterInfo
      ensures cpu == Last(ClusterAt(old(systemClusterInfo), clusterId).occupied)
      ensures S() == CoreFreed(old(S()), clusterId)
    {
      var cl := ClusterAt(systemClusterInfo, clusterId);
      cpu := Last(cl.occupied);
      systemClusterInfo := systemClusterInfo[clusterId := cl.(free := cl.free + [cpu], occupied := Init(cl.occupied))];
    }

    /** Returns the container's newest cluster to its node. */
    method ReleaseCluster(dockerId: string)
      requires dockerId in dockerInfos && |dockerInfos[dockerId].bind| > 0 && |dockerInfos[dockerId].memSet| > 0
      modifies this`dockerInfos, this`numaClusterInfo
      ensures S() == Release(old(S()), dockerId)
    {
      var d := dockerInfos[dockerId];
      var clusterId, nid := Last(d.bind), d.memSet[0];
      var nd := NodeAt(numaClusterInfo, nid);
      numaClusterInfo := numaClusterInfo[nid := Node(nd.free + [clusterId], Without(nd.occupied, [clusterId]))];
      dockerInfos := dockerInfos[dockerId := d.(bind := Init(d.bind))];
    }

    /** The cores leaving a container's cpuset, newest first; clusters without any are returned too. */
    method ShrinkCpuset(dockerId: string, count: nat) returns (minusCpuSet: seq<int>)
      requires Giving(topology, S(), BoundIds(S()), dockerId, [], count)
      modifies this
      ensures dockerId in dockerInfos
      ensures Trimmed(S(), dockerId, minusCpuSet) == GiveBack(old(S()), dockerId, count)
    {
      hide Trimmed;
      hide Giving;
      hide GiveBack;
      hide BoundIds;
      ghost var P := BoundIds(S());
      GivingFacts(topology, S(), P, dockerId, [], count);
      TrimmedNone(S(), dockerId);
      ghost var goal := GiveBack(S(), dockerId, count);
      var needReturnCount: nat := count;
      minusCpuSet := [];
      var clusterId := Last(dockerInfos[dockerId].bind);
      if needReturnCount <= |ClusterAt(systemClusterInfo, clusterId).occupied| {
        while needReturnCount > 0
          invariant needReturnCount <= |ClusterAt(systemClusterInfo, clusterId).occupied|
          invariant dockerId in dockerInfos && dockerInfos == old(dockerInfos)
          invariant Giving(topology, S(), P, dockerId, minusCpuSet, needReturnCount)
          invariant GiveBack(Trimmed(S(), dockerId, minusCpuSet), dockerId, needReturnCount) == goal
        {
          GivingTurn(topology, S(), P, dockerId, minusCpuSet, needReturnCount);
          var cpu := FreeCore(clusterId);
          minusCpuSet := minusCpuSet + [cpu];
          needReturnCount := needReturnCount - 1;
        }
      } else {
        while needReturnCount > 0
          invariant dockerId in dockerInfos
          invariant Giving(topology, S(), P, dockerId, minusCpuSet, needReturnCount)
          invariant GiveBack(Trimmed(S(), dockerId, minusCpuSet), dockerId, needReturnCount) == goal
          decreases needReturnCount + |dockerInfos[dockerId].bind|
        {
          GivingFacts(topology, S(), P, dockerId, minusCpuSet, needReturnCount);
          GivingTurn(topology, S(), P, dockerId, minusCpuSet, needReturnCount);
          clusterId := Last(dockerInfos[dockerId].bind);
          if |ClusterAt(systemClusterInfo, clusterId).occupied| == 0 {
            ReleaseCluster(dockerId);
          } else {
            var cpu := FreeCore(clusterId);
            minusCpuSet := minusCpuSet + [cpu];
            needReturnCount := needReturnCount - 1;
          }
        }
      }
      NothingToGive(Trimmed(S(), dockerId, minusCpuSet), dockerId);
    }

    /** Writes the trimmed cpuset and the new limit of a container. */
    method Settle(dockerId: string, minusCpuSet: seq<int>, limit: real)
      requires dockerId in dockerInfos
      modifies this`dockerInfos
      ensures S() == Settled(old(S()), dockerId, minusCpuSet, limit)
    {
      var d := dockerInfos[dockerId];
      dockerInfos := dockerInfos[dockerId := d.(cpuSet := Without(d.cpuSet, minusCpuSet), current := d.current - limit)];
    }

    /** DockerMinusCpuLimitComm: shrinks a container's limit and, by whole CPUs, its cpuset. */
    method DockerMinusCpuLimitComm(dockerId: string, limit: real, succeeds: bool) returns (ok: bool)
      requires CanMinus(topology, S(), dockerId, limit)
      modifies this
      ensures S() == MinusLimit(old(S()), dockerId, limit) && ok == succeeds
    {
      ghost var s0 := S();
      MinusReady(topology, s0, dockerId, limit);
      hide CanMinus;
      hide Giving;
      hide Trimmed;
      hide BoundIds;
      hide MinusLimit;
      hide Ceil;
      hide GiveBack;
      hide Settled;
      var current := dockerInfos[dockerId].current;
      var needReturnCount: int := Ceil(current) - Ceil(current - limit);
      var minusCpuSet := ShrinkCpuset(dockerId, needReturnCount);
      MinusLimitWritten(s0, dockerId, limit, S(), minusCpuSet, needReturnCount);
      Settle(dockerId, minusCpuSet, limit);
      return succeeds;
    }

    /** Writes the container's entry once its cores and memory are bound. */
    method Seat(dockerId: string, nid: int, ids: seq<int>, cpus: seq<int>)
      requires dockerId in dockerInfos
      modifies this`dockerInfos
      ensures S() == Seated(old(S()), dockerId, nid, ids, cpus)
    {
      var d := dockerInfos[dockerId];
      dockerInfos := dockerInfos[dockerId := d.(cpuSet := cpus, memSet := [nid], bind := d.bind + ids)];
    }

    /**
     * DockerBindClusters: gives a container clusterNum clusters of a node, and as many of their cores as its limit
     * needs. The clusters are entered first; the cores and the node only if the bind commands succeed.
     */
    method DockerBindClusters(dockerId: string, nid: int, clusterNum: nat, succeeds: bool) returns (ok: bool)
      requires Ready() && Sel().Calm() && CanBind(topology, S(), dockerId, nid, clusterNum)
      modifies this
      ensures S() == BindWith(topology, Sel(), old(S()), dockerId, nid, clusterNum, succeeds) && ok == succeeds
    {
      ghost var s0, sel := S(), Sel();
      BindReady(topology, s0, dockerId, nid, clusterNum);
      hide CanBind;
      hide BindTo;
      hide Filled;
      hide PickClusters;
      hide Seated;
      hide NodeTaken;
      hide Untouched;
      hide ClustersSplit;
      hide Ceil;
      hide BindWith;
      var needCpuCores: int := Ceil(dockerInfos[dockerId].initial);
      assert 0 <= (clusterNum - 1) * topology.Cores();
      var ids, cpus := Spread(nid, clusterNum, needCpuCores, []);
      BindToWritten(topology, sel, s0, dockerId, nid, clusterNum, ids);
      SeatWith(State(s0.dockers, systemClusterInfo, numaClusterInfo), s0, dockerId, nid, ids, cpus);
      BindWithIs(topology, sel, s0, dockerId, nid, clusterNum, succeeds);
      if succeeds {
        Seat(dockerId, nid, ids, cpus);
      } else {
        var d := dockerInfos[dockerId];
        dockerInfos := dockerInfos[dockerId := d.(bind := d.bind + ids)];
      }
      ok := succeeds;
    }

    // ---------- Rounds ----------

    /** DockerOptimizeBindSchedule, over the containers in the given order, each going to its given node. */
    method DockerOptimizeBindSchedule(order: seq<string>, home: map<string, int>, failed: set<string>) returns (stopped: bool)
      requires Ready() && CanBindAll(topology, Sel(), S(), order, home)
      modifies this
      ensures forall id :: id in order ==> id in old(dockerInfos) && id in home
      ensures BindResult(S(), stopped) == BindAll(topology, Sel(), old(S()), order, home, failed)
    {
      ghost var s0, sel := S(), Sel();
      assert order[..|order|] == order && sel.Calm();
      stopped := false;
      for i := 0 to |order|
        invariant forall id :: id in order[..i] ==> id in s0.dockers && id in home
        invariant BindResult(S(), stopped) == BindAll(topology, sel, s0, order[..i], home, failed)
      {
        hide CanBindAll;
        BindAllReady(topology, sel, s0, order, home, failed, i);
        hide BindAll;
        if !stopped {
          stopped := BindOne(order[i], home[order[i]], order[i] !in failed);
        }
      }
    }

    /** One container's turn: true when its node has too few free clusters, which stops the schedule. */
    method BindOne(dockerId: string, bindNuma: int, succeeds: bool) returns (stop: bool)
      requires Ready() && Sel().Calm() && BindTurnReady(topology, S(), dockerId, bindNuma)
      modifies this
      ensures dockerId in old(dockerInfos)
      ensures BindResult(S(), stop) == BindTurn(topology, Sel(), old(S()), dockerId, bindNuma, succeeds)
    {
      var d := dockerInfos[dockerId];
      stop := false;
      if !d.bound && d.initial > 0.0 {
        hide CanBind;
        var cores := topology.size / topology.Sep();
        var needClusterNum: int := Ceil(d.initial / cores as real);
        if |NodeAt(numaClusterInfo, bindNuma).free| < needClusterNum {
          stop := true;
        } else {
          hide BindWith;
          var _ := DockerBindClusters(dockerId, bindNuma, needClusterNum, succeeds);
          dockerInfos := dockerInfos[dockerId := dockerInfos[dockerId].(bound := true)];
        }
      }
    }

    /** Records what each idle container could lend. */
    method OfferLimits(order: seq<string>) returns (couldLend: seq<string>, couldBorrowLimit: real)
      requires NoDup(order) && forall id :: id in order ==> id in dockerInfos
      modifies this`dockerInfos
      ensures couldLend == Lenders(old(S()), order)
      ensures S() == Offered(old(S()), couldLend)
      ensures couldBorrowLimit == TotalOffer(S(), couldLend)
    {
      ghost var s0 := S();
      couldLend, couldBorrowLimit := [], 0.0;
      assert S() == Offered(s0, []);
      assert order[..|order|] == order;
      for i := 0 to |order|
        invariant dockerInfos.Keys == s0.dockers.Keys
        invariant couldLend == Lenders(s0, order[..i])
        invariant S() == Offered(s0, couldLend)
        invariant couldBorrowLimit == TotalOffer(S(), couldLend)
      {
        Prefixes(order, i);
        var id := order[i];
        assert id !in couldLend;
        var d := dockerInfos[id];
        if CanLend(d) {
          OfferedMore(s0, couldLend, id);
          ghost var before := S();
          dockerInfos := dockerInfos[id := d.(lend := Offer(d))];
          TotalOfferMore(before, S(), couldLend, id);
          couldLend := couldLend + [id];
          couldBorrowLimit := couldBorrowLimit + dockerInfos[id].lend;
        }
      }
    }

    /** The busy containers that do not lend. */
    method FindBorrowers(order: seq<string>, couldLend: seq<string>) returns (needBorrow: seq<string>)
      requires forall id :: id in order ==> id in dockerInfos
      ensures needBorrow == Borrowers(S(), order, couldLend)
    {
      needBorrow := [];
      assert order[..|order|] == order;
      for i := 0 to |order|
        invariant needBorrow == Borrowers(S(), order[..i], couldLend)
      {
        var id := order[i];
        assert order[..i + 1] == order[..i] + [id];
        assert Init(order[..i + 1]) == order[..i];
        if id !in couldLend && NeedsMore(dockerInfos[id]) {
          needBorrow := needBorrow + [id];
        }
      }
    }

    /** Records what one borrower owes each lender. */
    method RecordLoans(dockerId: string, couldLend: seq<string>, n: nat)
      requires n > 0 && dockerId in dockerInfos && forall id :: id in couldLend ==> id in dockerInfos
      modifies this`dockerInfos
      ensures var d := old(dockerInfos)[dockerId];
              dockerInfos == old(dockerInfos)[dockerId := d.(borrow := d.borrow + Shares(old(S()), couldLend, n))]
    {
      ghost var s0 := S();
      var d := dockerInfos[dockerId];
      var borrow := d.borrow;
      assert d.borrow + Shares(s0, couldLend[..0], n) == d.borrow;
      for j := 0 to |couldLend|
        invariant dockerInfos == s0.dockers && borrow == d.borrow + Shares(s0, couldLend[..j], n)
      {
        var lender := couldLend[j];
        SharesMore(s0, couldLend, j, n, d.borrow);
        hide Shares;
        borrow := borrow[lender := dockerInfos[lender].lend / n as real];
      }
      assert couldLend[..|couldLend|] == couldLend;
      dockerInfos := dockerInfos[dockerId := d.(borrow := borrow)];
    }

    /** One borrower gets its part of the offered limit, and owes every lender an equal part. */
    method BorrowOne(dockerId: string, limit: real, couldLend: seq<string>, n: nat)
      requires Ready() && Sel().Calm() && CanAdd(topology, S(), dockerId, limit) && n > 0
      requires forall id :: id in couldLend ==> id in dockerInfos && id != dockerId
      modifies this
      ensures dockerId in old(dockerInfos)
      ensures S() == BorrowTurn(topology, Sel(), old(S()), dockerId, limit, Shares(old(S()), couldLend, n))
    {
      ghost var s0, sel := S(), Sel();
      assert dockerId in dockerInfos;
      AddOthers(topology, sel, s0, dockerId, limit);
      hide CanAdd;
      hide AddLimit;
      var _ := DockerAddCpuLimitComm(dockerId, limit, true);
      SharesSame(s0, S(), couldLend, n);
      hide Shares;
      RecordLoans(dockerId, couldLend, n);
    }

    /** Every borrower gets its part of the offered limit. */
    method LendToBorrowers(needBorrow: seq<string>, limit: real, couldLend: seq<string>)
      requires Ready() && CanBorrow(topology, Sel(), S(), needBorrow, limit) && |needBorrow| > 0
      requires forall id :: id in couldLend ==> id in dockerInfos && id !in needBorrow
      modifies this
      ensures forall id :: id in needBorrow ==> id in old(dockerInfos)
      ensures S() == BorrowAll(topology, Sel(), old(S()), needBorrow, limit, Shares(old(S()), couldLend, |needBorrow|))
    {
      ghost var s0, sel := S(), Sel();
      ghost var shares := Shares(s0, couldLend, |needBorrow|);
      hide CanBorrow;
      hide BorrowTurn;
      hide AddLimit;
      assert needBorrow[..|needBorrow|] == needBorrow;
      for i := 0 to |needBorrow|
        invariant forall id :: id in needBorrow[..i] ==> id in s0.dockers
        invariant S() == BorrowAll(topology, sel, s0, needBorrow[..i], limit, shares)
      {
        BorrowReady(topology, sel, s0, needBorrow, limit, shares, i);
        hide BorrowAll;
        hide CanAdd;
        SharesSame(s0, S(), couldLend, |needBorrow|);
        BorrowOne(needBorrow[i], limit, couldLend, |needBorrow|);
      }
    }

    /** The lenders give up what they offered. */
    method LendFromIdle(couldLend: seq<string>, failed: set<string>)
      requires CanLendAll(topology, S(), couldLend)
      modifies this
      ensures forall id :: id in couldLend ==> id in old(dockerInfos)
      ensures S() == LendAll(old(S()), couldLend, failed)
    {
      ghost var s0 := S();
      hide CanLendAll;
      hide LendTurn;
      assert couldLend[..|couldLend|] == couldLend;
      for i := 0 to |couldLend|
        invariant forall id :: id in couldLend[..i] ==> id in s0.dockers
        invariant S() == LendAll(s0, couldLend[..i], failed)
      {
        LendReady(topology, s0, couldLend, failed, i);
        hide LendAll;
        hide CanMinus;
        LendOne(couldLend[i], couldLend[i] !in failed, failed);
      }
    }

    /** One lender; it is marked only if its update command succeeded. */
    method LendOne(dockerId: string, succeeds: bool, ghost failed: set<string>)
      requires dockerId in dockerInfos && CanMinus(topology, S(), dockerId, dockerInfos[dockerId].lend)
      requires succeeds == (dockerId !in failed)
      modifies this
      ensures S() == LendTurn(old(S()), dockerId, failed)
    {
      hide CanMinus;
      hide MinusLimit;
      var ok := DockerMinusCpuLimitComm(dockerId, dockerInfos[dockerId].lend, succeeds);
      if ok {
        dockerInfos := dockerInfos[dockerId := dockerInfos[dockerId].(lended := true)];
      }
    }

    /** Carries out a plan: the borrowers' limits grow, then the lenders' shrink. */
    method MoveLimits(couldLend: seq<string>, needBorrow: seq<string>, limit: real, failed: set<string>, ghost p: Plan)
      requires Ready() && Sel().Calm() && PlanGood(topology, Sel(), p)
      requires S() == p.offered && couldLend == p.lenders && needBorrow == p.borrowers && limit == p.Limit()
      modifies this
      ensures topology.Uniform() && S() == CarriedOut(topology, Sel(), p, failed)
    {
      hide CanBorrow;
      hide CanLendAll;
      hide BorrowAll;
      hide LendAll;
      hide Shares;
      LendToBorrowers(needBorrow, limit, couldLend);
      LendFromIdle(couldLend, failed);
    }

    /** The part of the round after the offers. */
    method LendOffers(order: seq<string>, couldLend: seq<string>, couldBorrowLimit: real, failed: set<string>, ghost p: Plan)
      requires Ready() && Sel().Calm() && (forall id :: id in order ==> id in dockerInfos)
      requires S() == p.offered && couldLend == p.lenders && couldBorrowLimit == p.total
      requires p.borrowers == Borrowers(p.offered, order, p.lenders) && (p.Quiet() || PlanGood(topology, Sel(), p))
      modifies this
      ensures topology.Uniform() && S() == if p.Quiet() then p.offered else CarriedOut(topology, Sel(), p, failed)
    {
      hide CarriedOut;
      hide PlanGood;
      if couldBorrowLimit < 0.01 {
        return;
      }
      var needBorrow := FindBorrowers(order, couldLend);
      hide Borrowers;
      if |needBorrow| > 0 {
        var borrowLimitPerDocker := couldBorrowLimit / |needBorrow| as real;
        MoveLimits(couldLend, needBorrow, borrowLimitPerDocker, failed, p);
      }
    }

    /** TryBorrowCpuFromIdleDocker, visiting the containers in the given order. */
    method TryBorrowCpuFromIdleDocker(order: seq<string>, failed: set<string>)
      requires Ready() && Sel().Calm() && Lists(order, dockerInfos) && CanBorrowRound(topology, Sel(), S(), order)
      modifies this
      ensures S() == BorrowRound(topology, Sel(), old(S()), order, failed)
    {
      ghost var s0, sel := S(), Sel();
      BorrowRoundReady(topology, sel, s0, order);
      BorrowRoundIsPlan(topology, sel, s0, order, failed);
      hide CanBorrowRound;
      hide BorrowRound;
      hide CarriedOut;
      hide PlanGood;
      hide Offered;
      hide Lenders;
      hide Borrowers;
      hide TotalOffer;
      ghost var p := PlanOf(s0, order);
      var couldLend, couldBorrowLimit := OfferLimits(order);
      LendOffers(order, couldLend, couldBorrowLimit, failed, p);
    }

    /** The lenders that have become busy. */
    method FindRecallers(order: seq<string>) returns (needReturn: seq<string>)
      requires forall id :: id in order ==> id in dockerInfos
      ensures needReturn == Recallers(S(), order)
    {
      needReturn := [];
      assert order[..|order|] == order;
      for i := 0 to |order|
        invariant needReturn == Recallers(S(), order[..i])
      {
        RecallersMore(S(), order, i);
        if WantsBack(dockerInfos[order[i]]) {
          needReturn := needReturn + [order[i]];
        }
      }
    }

    /** Moves one container's borrow entry for a lender, if any, into the debts. */
    method CollectOne(id: string, lender: string, debts: map<string, real>) returns (more: map<string, real>)
      requires id in dockerInfos
      modifies this`dockerInfos
      ensures var d := old(dockerInfos)[id];
              if lender in d.borrow then
                && dockerInfos == old(dockerInfos)[id := d.(borrow := d.borrow - {lender})]
                && more == debts[id := (if id in debts then debts[id] else 0.0) + d.borrow[lender]]
              else dockerInfos == old(dockerInfos) && more == debts
    {
      var d := dockerInfos[id];
      more := debts;
      if lender in d.borrow {
        more := more[id := (if id in more then more[id] else 0.0) + d.borrow[lender]];
        dockerInfos := dockerInfos[id := d.(borrow := d.borrow - {lender})];
      }
    }

    /** Moves every borrow entry of one lender into the debts. */
    method CollectFrom(lender: string, order: seq<string>, debts: map<string, real>) returns (more: map<string, real>)
      requires Lists(order, dockerInfos) && debts.Keys <= dockerInfos.Keys
      modifies this`dockerInfos
      ensures dockerInfos == ClearedOf(old(dockerInfos), lender)
      ensures more == OneMore(old(dockerInfos), debts, lender)
    {
      ghost var D := dockerInfos;
      more := debts;
      OneMoreStart(order, D, debts, lender);
      for j := 0 to |order|
        invariant dockerInfos == ClearedPart(D, order, j, lender) && dockerInfos.Keys == D.Keys
        invariant more == OneMorePart(D, debts, order, j, lender)
      {
        var id := order[j];
        assert id in D;
        ClearedStep(D, order, j, lender);
        DebtsStep(D, debts, order, j, lender);
        hide ClearedPart;
        hide OneMorePart;
        more := CollectOne(id, lender, more);
      }
      OneMoreEnd(order, D, debts, lender);
    }

    /** Clears the borrow entries of the recalled lenders, adding up what everybody owes. */
    method CollectDebts(recallers: seq<string>, order: seq<string>) returns (debts: map<string, real>)
      requires NoDup(recallers) && Lists(order, dockerInfos)
      modifies this`dockerInfos
      ensures S() == Cleared(old(S()), recallers)
      ensures debts == Debts(old(S()), recallers)
    {
      ghost var s0 := S();
      debts := map[];
      ClearedNone(s0);
      assert recallers[..0] == [] && recallers[..|recallers|] == recallers;
      for k := 0 to |recallers|
        invariant S() == Cleared(s0, recallers[..k]) && debts == Debts(s0, recallers[..k])
      {
        ClearedMore(s0, recallers, k);
        DebtsMore(s0, recallers, k);
        hide ClearedOf;
        hide OneMore;
        hide Cleared;
        hide NoDup;
        debts := CollectFrom(recallers[k], order, debts);
      }
    }

    /** The recalled lenders get their limit back. */
    method RestoreLenders(recallers: seq<string>)
      requires Ready() && CanRecall(topology, Sel(), S(), recallers)
      modifies this
      ensures forall id :: id in recallers ==> id in old(dockerInfos)
      ensures S() == RecallAll(topology, Sel(), old(S()), recallers)
    {
      ghost var s0, sel := S(), Sel();
      assert sel.Calm();
      hide CanRecall;
      hide RecallTurn;
      assert recallers[..|recallers|] == recallers;
      for i := 0 to |recallers|
        invariant forall id :: id in recallers[..i] ==> id in s0.dockers
        invariant S() == RecallAll(topology, sel, s0, recallers[..i])
      {
        RecallReady(topology, sel, s0, recallers, i);
        hide RecallAll;
        hide CanAdd;
        RestoreOne(recallers[i]);
      }
    }

    method RestoreOne(dockerId: string)
      requires Ready() && Sel().Calm() && dockerId in dockerInfos && CanAdd(topology, S(), dockerId, dockerInfos[dockerId].lend)
      modifies this
      ensures S() == RecallTurn(topology, Sel(), old(S()), dockerId)
    {
      hide CanAdd;
      hide AddLimit;
      var _ := DockerAddCpuLimitComm(dockerId, dockerInfos[dockerId].lend, true);
      dockerInfos := dockerInfos[dockerId := dockerInfos[dockerId].(lended := false)];
    }

    /** The debtors pay back. */
    method RepayDebts(order: seq<string>, debts: map<string, real>)
      requires CanRepay(topology, S(), order, debts)
      modifies this
      ensures forall id :: id in order ==> id in old(dockerInfos)
      ensures S() == RepayAll(old(S()), order, debts)
    {
      ghost var s0 := S();
      hide CanRepay;
      assert order[..|order|] == order;
      for i := 0 to |order|
        invariant forall id :: id in order[..i] ==> id in s0.dockers
        invariant S() == RepayAll(s0, order[..i], debts)
      {
        RepayReady(topology, s0, order, debts, i);
        hide RepayAll;
        hide CanMinus;
        hide MinusLimit;
        if order[i] in debts {
          var _ := DockerMinusCpuLimitComm(order[i], debts[order[i]], true);
        }
      }
    }

    /** Takes the recalled loans back: entries are cleared, the lenders' limits grow, then the debtors' shrink. */
    method TakeBack(needReturn: seq<string>, order: seq<string>, order2: seq<string>)
      requires Ready() && Sel().Calm() && Lists(order, dockerInfos) && Lists(order2, dockerInfos)
      requires RecallGood(topology, Sel(), S(), needReturn, order2)
      modifies this
      ensures topology.Uniform() && S() == TakenBack(topology, Sel(), old(S()), needReturn, order2)
    {
      ghost var s0 := S();
      hide CanRecall;
      hide CanRepay;
      hide RecallAll;
      hide RepayAll;
      hide Cleared;
      hide Debts;
      var debts := CollectDebts(needReturn, order);
      RestoreLenders(needReturn);
      RepayDebts(order2, debts);
    }

    /** TryReturnCpuToIdleDocker, visiting the containers in the given orders. */
    method TryReturnCpuToIdleDocker(order: seq<string>, order2: seq<string>)
      requires Ready() && Sel().Calm() && Lists(order, dockerInfos) && Lists(order2, dockerInfos)
      requires CanReturnRound(topology, Sel(), S(), order, order2)
      modifies this
      ensures S() == ReturnRound(topology, Sel(), old(S()), order, order2)
    {
      ghost var s0, sel := S(), Sel();
      ReturnRoundReady(topology, sel, s0, order, order2);
      ReturnRoundIsTakenBack(topology, sel, s0, order, order2);
      hide CanReturnRound;
      hide RecallGood;
      hide ReturnRound;
      hide TakenBack;
      hide Recallers;
      var needReturn := FindRecallers(order);
      if |needReturn| > 0 {
        TakeBack(needReturn, order, order2);
      }
    }

    // ---------- Start-up ----------

    /** The first sibling of every core among `cpus` starting at position `start`. */
    method FirstSiblings(cpus: seq<int>, start: nat, ghost c: int) returns (free: seq<int>)
      requires topology.Uniform() && CpuBlock(topology, cpus, start, c)
      ensures free == topology.PhysCores(c)
    {
      var sep := topology.Sep();
      var k := 0;
      free := [];
      CoresTimesSep(topology);
      while k < topology.size
        invariant k == |free| * sep && |free| <= topology.Cores()
        invariant forall j :: 0 <= j < |free| ==> free[j] == c * topology.size + j * sep
      {
        free := free + [cpus[start + k]];
        k := k + sep;
      }
    }

    /** The other logical CPUs of the block. */
    method OtherSiblings(cpus: seq<int>, start: nat, free: seq<int>, ghost c: int) returns (logical: seq<int>)
      requires CpuBlock(topology, cpus, start, c) && free == topology.PhysCores(c)
      ensures logical == Siblings(topology, c)
    {
      ghost var block := Block(topology, c);
      logical := [];
      for k := 0 to topology.size
        invariant logical == Without(block[..k], free)
      {
        assert block[..k + 1] == block[..k] + [cpus[start + k]];
        WithoutAppend(block[..k], cpus[start + k], free);
        if cpus[start + k] !in free {
          logical := logical + [cpus[start + k]];
        }
      }
      assert block[..topology.size] == block;
    }

    /** The clusters of node i, added to `clusters`. */
    method NodeClusters(i: nat, clusters: map<int, Cluster>) returns (all: map<int, Cluster>, ids: seq<int>)
      requires topology.Uniform() && ClustersUpTo(topology, clusters, i * topology.perNode)
      ensures ClustersUpTo(topology, all, (i + 1) * topology.perNode) && ids == topology.ClusterIds(i)
    {
      var cpus := topology.NodeCpus(i);
      FirstClusterOfNode(topology, i);
      var clusterNum := |cpus| / topology.size;
      all, ids := clusters, [];
      for j := 0 to clusterNum
        invariant ClustersUpTo(topology, all, i * topology.perNode + j)
        invariant ids == topology.ClusterIds(i)[..j]
      {
        hide ClustersUpTo;
        hide CpuBlock;
        var start := j * topology.size;
        BlockAt(topology, i, j);
        var clusterId := cpus[start] / topology.size;
        var free := FirstSiblings(cpus, start, clusterId);
        var logical := OtherSiblings(cpus, start, free, clusterId);
        OneMoreCluster(topology, all, clusterId);
        all := all[clusterId := Cluster(logical, free, [])];
        ids := ids + [clusterId];
      }
      assert (i + 1) * topology.perNode == i * topology.perNode + topology.perNode;
    }

    /** InitSystemClusters, on empty tables. */
    method InitSystemClusters() returns (ok: bool)
      requires topology.size > 0 ==> topology.Uniform()
      requires S() == State(map[], map[], map[])
      modifies this
      ensures ok == (topology.size > 0)
      ensures S() == if ok then Start(topology) else old(S())
    {
      if topology.size == 0 {
        return false;
      }
      assert dockerInfos == map[];
      var clusters: map<int, Cluster>, nodes: map<int, Node> := map[], map[];
      for i := 0 to topology.nodes
        invariant ClustersUpTo(topology, clusters, i * topology.perNode)
        invariant NodesUpTo(topology, nodes, i) && dockerInfos == map[]
      {
        hide ClustersUpTo;
        var ids;
        clusters, ids := NodeClusters(i, clusters);
        nodes := nodes[i := Node(ids, [])];
      }
      StartReached(topology, clusters, nodes);
      systemClusterInfo, numaClusterInfo := clusters, nodes;
      assert S() == State(map[], clusters, nodes);
      return true;
    }
  }
}
