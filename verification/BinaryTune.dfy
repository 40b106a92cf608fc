/** Binding threads and giving them back their own affinity (binary_tune.cpp). */
module BinaryTune {
  import opened Seqs
  import opened BinaryCores

  type Mask = set<int>

  // ---------- What is recorded about changed threads ----------

  /**
   * `affinity` is the kernel's view of the live threads and `original` what it was before the plugin first changed it.
   * Recorded threads can be restored; all others still have their own affinity.
   */
  datatype Threads = Threads(tuned: map<int, Mask>, affinity: map<int, Mask>, original: map<int, Mask>)

  ghost predicate Recorded(s: Threads) {
    s.original.Keys == s.affinity.Keys && forall t :: t in s.affinity ==> RecordedAt(s, t)
  }

  ghost predicate RecordedAt(s: Threads, t: int) {
    && t in s.affinity && t in s.original
    && if t in s.tuned then s.tuned[t] == s.original[t] else s.affinity[t] == s.original[t]
  }

  /** A successful change records the former mask only the first time (map::emplace). */
  function Change(s: Threads, tid: int, m: Mask): Threads
    requires tid in s.affinity
  {
    s.(tuned := if tid in s.tuned then s.tuned else s.tuned[tid := s.affinity[tid]], affinity := s.affinity[tid := m])
  }

  /** Dropping the records of threads that no container lists. */
  function Forget(s: Threads, listed: set<int>): Threads {
    s.(tuned := map t | t in s.tuned && t in listed :: s.tuned[t])
  }

  /** Writing back every record. */
  function Restore(s: Threads): Threads {
    s.(tuned := map[], affinity := map t | t in s.affinity :: if t in s.tuned then s.tuned[t] else s.affinity[t])
  }

  /** Restoring gives every live thread its own affinity back. */
  lemma RestoreReturnsAll(s: Threads)
    requires Recorded(s)
    ensures Restore(s).affinity == s.original && Restore(s).tuned == map[]
  {
    var r := Restore(s);
    forall t | t in s.affinity ensures r.affinity[t] == s.original[t] {
    }
    assert r.affinity == s.original;
  }

  // ---------- The steps of a round ----------

  /** The threads and how often an affinity has been set so far; `accepts` says whether the k-th attempt succeeds. */
  datatype Tuning = Tuning(threads: Threads, calls: nat)

  type Oracle = nat -> bool

  /** SetAffinity: nothing to do for a thread that has the mask; nothing happens for one that has exited. */
  function Attempt(v: Tuning, accepts: Oracle, tid: int, m: Mask): Tuning {
    if tid in v.threads.affinity && v.threads.affinity[tid] == m then v
    else Tuning(if tid in v.threads.affinity && accepts(v.calls) then Change(v.threads, tid, m) else v.threads, v.calls + 1)
  }

  function AttemptAll(v: Tuning, accepts: Oracle, tids: seq<int>, m: Mask): Tuning {
    if |tids| == 0 then v else Attempt(AttemptAll(v, accepts, Init(tids), m), accepts, Last(tids), m)
  }

  /** BindCpuCore: items for which too few cores are left are passed over. */
  function BindCores(v: Tuning, accepts: Oracle, base: int, size: nat, items: seq<Item>): Tuning {
    if |items| == 0 then v
    else
      var before, t, q := BindCores(v, accepts, base, size, Init(items)), Taken(size, Init(items)), Positive(Last(items).quota);
      if t + q <= Capacity(size) then AttemptAll(before, accepts, Last(items).threads, CoreSet(base, t, q)) else before
  }

  function UpTo(n: nat): Mask {
    if n == 0 then {} else UpTo(n - 1) + {n - 1}
  }

  /** The part of a round for one node. */
  function TuneNode(v: Tuning, accepts: Oracle, size: nat, node: int, cpus: int, items: seq<Item>, tids: seq<int>, nodeMask: Mask): Tuning {
    if cpus > size / 2 then v.(threads := Restore(v.threads))
    else AttemptAll(BindCores(v, accepts, node * size, size, items), accepts, tids, nodeMask)
  }

  /** The fixed surroundings of the plugin. */
  datatype Machine = Machine(cpuCoreNum: nat, numaNum: nat, cpu2Numa: map<int, int>, phyNumaMask: map<int, Mask>, accepts: Oracle) {
    /** CPUs per node. */
    function Size(): nat {
      if numaNum == 0 then 0 else cpuCoreNum / numaNum
    }

    function MaskAt(n: int): Mask {
      if n in phyNumaMask then phyNumaMask[n] else {}
    }
  }

  /** A container that does not fill a node: its threads may run anywhere. */
  function LoosenOne(v: Tuning, m: Machine, policy: map<int, int>, c: Container): Tuning {
    if FullNode(m.cpu2Numa, m.Size(), c.cpus).Some? then v
    else AttemptAll(v, m.accepts, Asking(policy, c.tasks, {NODE, CORES}), UpTo(m.cpuCoreNum))
  }

  function Loosen(v: Tuning, m: Machine, policy: map<int, int>, cs: seq<Container>): Tuning {
    if |cs| == 0 then v else LoosenOne(Loosen(v, m, policy, Init(cs)), m, policy, Last(cs))
  }

  /** Some container fills the node. */
  function Filled(m: Machine, cs: seq<Container>, n: int): bool {
    |cs| > 0 && (Filled(m, Init(cs), n) || FullNode(m.cpu2Numa, m.Size(), Last(cs).cpus) == Some(n))
  }

  /** The nodes in order. */
  ghost function TuneNodes(v: Tuning, m: Machine, policy: map<int, int>, cs: seq<Container>, nodes: seq<int>): Tuning
    requires Periods(cs)
  {
    if |nodes| == 0 then v
    else
      var before, n := TuneNodes(v, m, policy, cs, Init(nodes)), Last(nodes);
      if Filled(m, cs, n) then
        TuneNode(before, m.accepts, m.Size(), n, Total(m.cpu2Numa, m.Size(), cs, n), Items(m.cpu2Numa, m.Size(), policy, cs, n),
                 NodeThreads(m.cpu2Numa, m.Size(), policy, cs, n), m.MaskAt(n))
      else before
  }

  /** The order in which a round visits nodes: ascending, and every node that some container fills. */
  ghost predicate InOrder(m: Machine, cs: seq<Container>, nodes: seq<int>) {
    (forall i, j :: 0 <= i < j < |nodes| ==> nodes[i] < nodes[j]) && forall n :: Filled(m, cs, n) ==> n in nodes
  }

  /** A whole round: loosening, dropping the records of unlisted threads, then the nodes. */
  ghost function Round(v: Tuning, m: Machine, policy: map<int, int>, cs: seq<Container>, nodes: seq<int>): Tuning
    requires Periods(cs)
  {
    var a := Loosen(v, m, policy, cs);
    TuneNodes(a.(threads := Forget(a.threads, AllTasks(cs))), m, policy, cs, nodes)
  }

  // ---------- Counting node by node ----------

  function Lookup(m: map<int, int>, n: int): int {
    if n in m then m[n] else 0
  }

  function ItemsAt(m: map<int, seq<Item>>, n: int): seq<Item> {
    if n in m then m[n] else []
  }

  function TidsAt(m: map<int, seq<int>>, n: int): seq<int> {
    if n in m then m[n] else []
  }

  /** The counts of every node, for the containers seen so far. */
  ghost predicate Counted(total: map<int, int>, cpu2Numa: map<int, int>, size: int, cs: seq<Container>)
    requires Periods(cs)
  {
    forall n :: Lookup(total, n) == Total(cpu2Numa, size, cs, n)
  }

  /** The waiting containers of every node, likewise. */
  ghost predicate Queued(byCore: map<int, seq<Item>>, cpu2Numa: map<int, int>, size: int, policy: map<int, int>, cs: seq<Container>)
    requires Periods(cs)
  {
    forall n :: ItemsAt(byCore, n) == Items(cpu2Numa, size, policy, cs, n)
  }

  lemma CountMore(total: map<int, int>, cpu2Numa: map<int, int>, size: int, cs: seq<Container>, i: nat)
    requires i < |cs| && Periods(cs) && Periods(cs[..i]) && Counted(total, cpu2Numa, size, cs[..i])
    ensures Periods(cs[..i + 1])
    ensures match FullNode(cpu2Numa, size, cs[i].cpus)
            case None => Counted(total, cpu2Numa, size, cs[..i + 1])
            case Some(node) => Counted(total[node := Lookup(total, node) + Quota(cs[i])], cpu2Numa, size, cs[..i + 1])
  {
    hide Total;
    hide FullNode;
    hide Quota;
    hide Lookup;
    MorePeriods(cs, i);
    var full := FullNode(cpu2Numa, size, cs[i].cpus);
    var after := match full case None => total case Some(node) => total[node := Lookup(total, node) + Quota(cs[i])];
    forall n ensures Lookup(after, n) == Total(cpu2Numa, size, cs[..i + 1], n) {
      TotalMore(cpu2Numa, size, cs, i, n);
      assert Lookup(total, n) == Total(cpu2Numa, size, cs[..i], n);
      if full.Some? {
        LookupAfter(total, full.value, Lookup(total, full.value) + Quota(cs[i]), n);
      }
    }
  }

  lemma QueueMore(byCore: map<int, seq<Item>>, cpu2Numa: map<int, int>, size: int, policy: map<int, int>, cs: seq<Container>, i: nat)
    requires i < |cs| && Periods(cs) && Periods(cs[..i]) && Queued(byCore, cpu2Numa, size, policy, cs[..i])
    ensures Periods(cs[..i + 1])
    ensures var full, waiting := FullNode(cpu2Numa, size, cs[i].cpus), Waiting(policy, cs[i].tasks);
            if full.Some? && waiting != [] then
              Queued(byCore[full.value := ItemsAt(byCore, full.value) + [Item(Quota(cs[i]), waiting)]], cpu2Numa, size, policy, cs[..i + 1])
            else Queued(byCore, cpu2Numa, size, policy, cs[..i + 1])
  {
    hide Items;
    hide FullNode;
    hide Quota;
    hide Waiting;
    hide ItemsAt;
    MorePeriods(cs, i);
    var full, waiting := FullNode(cpu2Numa, size, cs[i].cpus), Waiting(policy, cs[i].tasks);
    var after := if full.Some? && waiting != []
                 then byCore[full.value := ItemsAt(byCore, full.value) + [Item(Quota(cs[i]), waiting)]] else byCore;
    forall n ensures ItemsAt(after, n) == Items(cpu2Numa, size, policy, cs[..i + 1], n) {
      ItemsMore(cpu2Numa, size, policy, cs, i, n);
      assert ItemsAt(byCore, n) == Items(cpu2Numa, size, policy, cs[..i], n);
      if full.Some? {
        ItemsAfter(byCore, full.value, ItemsAt(byCore, full.value) + [Item(Quota(cs[i]), waiting)], n);
      }
    }
  }

  lemma MorePeriods(cs: seq<Container>, i: nat)
    requires i < |cs| && Periods(cs)
    ensures Periods(cs[..i]) && Periods(cs[..i + 1])
  {
  }

  lemma LookupAfter(m: map<int, int>, k: int, v: int, n: int)
    ensures Lookup(m[k := v], n) == if n == k then v else Lookup(m, n)
  {
  }

  lemma ItemsAfter(m: map<int, seq<Item>>, k: int, v: seq<Item>, n: int)
    ensures ItemsAt(m[k := v], n) == if n == k then v else ItemsAt(m, n)
  {
  }

  /** The threads of every node that ask for all of it, for the containers seen so far. */
  ghost predicate Grouped(byNuma: map<int, seq<int>>, cpu2Numa: map<int, int>, size: int, policy: map<int, int>, cs: seq<Container>) {
    forall n :: TidsAt(byNuma, n) == NodeThreads(cpu2Numa, size, policy, cs, n)
  }

  lemma TidsAfter(m: map<int, seq<int>>, k: int, v: seq<int>, n: int)
    ensures TidsAt(m[k := v], n) == if n == k then v else TidsAt(m, n)
  {
  }

  lemma GroupMore(byNuma: map<int, seq<int>>, cpu2Numa: map<int, int>, size: int, policy: map<int, int>, cs: seq<Container>, i: nat)
    requires i < |cs| && Grouped(byNuma, cpu2Numa, size, policy, cs[..i])
    ensures var full, tids := FullNode(cpu2Numa, size, cs[i].cpus), Asking(policy, cs[i].tasks, {NODE});
            match full
            case None => Grouped(byNuma, cpu2Numa, size, policy, cs[..i + 1])
            case Some(node) => Grouped(byNuma[node := TidsAt(byNuma, node) + tids], cpu2Numa, size, policy, cs[..i + 1])
  {
    hide NodeThreads;
    hide FullNode;
    hide Asking;
    hide TidsAt;
    var full, tids := FullNode(cpu2Numa, size, cs[i].cpus), Asking(policy, cs[i].tasks, {NODE});
    var after := match full case None => byNuma case Some(node) => byNuma[node := TidsAt(byNuma, node) + tids];
    forall n ensures TidsAt(after, n) == NodeThreads(cpu2Numa, size, policy, cs[..i + 1], n) {
      NodeThreadsMore(cpu2Numa, size, policy, cs, i, n);
      assert TidsAt(byNuma, n) == NodeThreads(cpu2Numa, size, policy, cs[..i], n);
      assert NodeThreads(cpu2Numa, size, policy, cs[..i], n) + [] == NodeThreads(cpu2Numa, size, policy, cs[..i], n);
      if full.Some? {
        TidsAfter(byNuma, full.value, TidsAt(byNuma, full.value) + tids, n);
      }
    }
  }

  /** A node has an entry exactly when some container fills it. */
  ghost predicate Present(total: map<int, int>, m: Machine, cs: seq<Container>) {
    forall n :: n in total <==> Filled(m, cs, n)
  }

  lemma FilledMore(m: Machine, cs: seq<Container>, i: nat, n: int)
    requires i < |cs|
    ensures Filled(m, cs[..i + 1], n) <==> Filled(m, cs[..i], n) || FullNode(m.cpu2Numa, m.Size(), cs[i].cpus) == Some(n)
  {
    assert Init(cs[..i + 1]) == cs[..i] && Last(cs[..i + 1]) == cs[i];
    hide FullNode;
  }

  lemma PresentMore(total: map<int, int>, after: map<int, int>, m: Machine, cs: seq<Container>, i: nat)
    requires i < |cs| && Present(total, m, cs[..i])
    requires match FullNode(m.cpu2Numa, m.Size(), cs[i].cpus)
             case None => after == total
             case Some(node) => after.Keys == total.Keys + {node}
    ensures Present(after, m, cs[..i + 1])
  {
    hide Filled;
    hide FullNode;
    forall n ensures n in after <==> Filled(m, cs[..i + 1], n) {
      FilledMore(m, cs, i, n);
      assert n in total <==> Filled(m, cs[..i], n);
    }
  }

  /** The counts and groups of every node, for the containers seen so far. */
  ghost predicate Placed(m: Machine, policy: map<int, int>, cs: seq<Container>,
                         total: map<int, int>, byCore: map<int, seq<Item>>, byNuma: map<int, seq<int>>) {
    && Periods(cs) && Counted(total, m.cpu2Numa, m.Size(), cs) && Present(total, m, cs)
    && Queued(byCore, m.cpu2Numa, m.Size(), policy, cs) && Grouped(byNuma, m.cpu2Numa, m.Size(), policy, cs)
  }

  // ---------- The plugin ----------

  predicate InMask(masks: map<int, Mask>, n: int, c: int) {
    n in masks && c in masks[n]
  }

  /** Each node's mask holds its CPUs with even numbers among the first `count`. */
  ghost predicate EvenCpus(masks: map<int, Mask>, numaNum: nat, cpu2Node: seq<int>, count: nat)
    requires count <= |cpu2Node|
  {
    && (forall n :: n in masks <==> 0 <= n < numaNum)
    && forall n, c :: InMask(masks, n, c) <==> 0 <= n < numaNum && 0 <= c < count && c % 2 == 0 && cpu2Node[c] == n
  }

  lemma EvenCpusMore(masks: map<int, Mask>, numaNum: nat, cpu2Node: seq<int>, i: nat)
    requires i < |cpu2Node| && 0 <= cpu2Node[i] < numaNum && EvenCpus(masks, numaNum, cpu2Node, i)
    ensures cpu2Node[i] in masks
    ensures EvenCpus(if i % 2 == 0 then masks[cpu2Node[i] := masks[cpu2Node[i]] + {i}] else masks, numaNum, cpu2Node, i + 1)
  {
    var after := if i % 2 == 0 then masks[cpu2Node[i] := masks[cpu2Node[i]] + {i}] else masks;
    forall n, c ensures InMask(after, n, c) <==> InMask(masks, n, c) || (n == cpu2Node[i] && c == i && c % 2 == 0) {
    }
  }

  lemma EvenCpusNone(masks: map<int, Mask>, i: nat, cpu2Node: seq<int>)
    requires EvenCpus(masks, i, cpu2Node, 0)
    ensures EvenCpus(masks[i := {}], i + 1, cpu2Node, 0)
  {
    var after := masks[i := {}];
    forall n, c ensures !InMask(after, n, c) {
      assert !InMask(masks, n, c);
    }
  }

  /** The first message about the machine: the node of each CPU, and the CPUs with even numbers of each node. */
  method ReadStatic(numaNum: nat, cpu2Node: seq<int>) returns (cpu2Numa: map<int, int>, phyNumaMask: map<int, Mask>)
    requires forall c :: 0 <= c < |cpu2Node| ==> 0 <= cpu2Node[c] < numaNum
    ensures forall c :: c in cpu2Numa <==> 0 <= c < |cpu2Node|
    ensures forall c :: c in cpu2Numa ==> cpu2Numa[c] == cpu2Node[c]
    ensures forall n :: n in phyNumaMask <==> 0 <= n < numaNum
    ensures forall n, c :: InMask(phyNumaMask, n, c) <==> 0 <= n < numaNum && 0 <= c < |cpu2Node| && c % 2 == 0 && cpu2Node[c] == n
  {
    cpu2Numa, phyNumaMask := map[], map[];
    for i := 0 to numaNum
      invariant EvenCpus(phyNumaMask, i, cpu2Node, 0)
    {
      EvenCpusNone(phyNumaMask, i, cpu2Node);
      phyNumaMask := phyNumaMask[i := {}];
    }
    for i := 0 to |cpu2Node|
      invariant forall c :: c in cpu2Numa <==> 0 <= c < i
      invariant forall c :: c in cpu2Numa ==> cpu2Numa[c] == cpu2Node[c]
      invariant EvenCpus(phyNumaMask, numaNum, cpu2Node, i)
    {
      hide EvenCpus;
      EvenCpusMore(phyNumaMask, numaNum, cpu2Node, i);
      cpu2Numa := cpu2Numa[i := cpu2Node[i]];
      if i % 2 == 0 {
        phyNumaMask := phyNumaMask[cpu2Numa[i] := phyNumaMask[cpu2Numa[i]] + {i}];
      }
    }
  }

  class BinaryTune {
    const machine: Machine
    var tuneThreads: map<int, Mask>
    var affinity: map<int, Mask>
    var calls: nat
    ghost var original: map<int, Mask>

    ghost function V(): Tuning
      reads this
    {
      Tuning(Threads(tuneThreads, affinity, original), calls)
    }

    method SetAffinity(tid: int, newMask: Mask)
      modifies this`tuneThreads, this`affinity, this`calls
      ensures V() == Attempt(old(V()), machine.accepts, tid, newMask)
    {
      if tid in affinity && affinity[tid] == newMask {
        return;
      }
      if tid in affinity && machine.accepts(calls) {
        if tid !in tuneThreads {
          tuneThreads := tuneThreads[tid := affinity[tid]];
        }
        affinity := affinity[tid := newMask];
      }
      calls := calls + 1;
    }

    method SetAll(tids: seq<int>, m: Mask)
      modifies this`tuneThreads, this`affinity, this`calls
      ensures V() == AttemptAll(old(V()), machine.accepts, tids, m)
    {
      hide Attempt;
      for i := 0 to |tids|
        invariant V() == AttemptAll(old(V()), machine.accepts, tids[..i], m)
      {
        assert Init(tids[..i + 1]) == tids[..i];
        SetAffinity(tids[i], m);
      }
      assert tids[..|tids|] == tids;
    }

    /** The next cores of the node, as many as asked for; `left` is how many were missing. */
    method TakeCores(numaNode: int, coreIndex: int, bindCoreNum: int, ghost t: nat) returns (newMask: Mask, next: int, left: int)
      requires coreIndex == numaNode * machine.Size() + 2 * t && t <= Capacity(machine.Size())
      ensures var base, q := numaNode * machine.Size(), Positive(bindCoreNum);
              && next == base + 2 * (if t + q <= Capacity(machine.Size()) then t + q else Capacity(machine.Size()))
              && (left <= 0 <==> t + q <= Capacity(machine.Size()))
              && (left <= 0 ==> newMask == CoreSet(base, t, q))
    {
      var endIndex := numaNode * machine.Size() + machine.Size();
      next, left, newMask := coreIndex, bindCoreNum, {};
      ghost var k := 0;
      while next < endIndex && left > 0
        invariant 0 <= k && next == coreIndex + 2 * k && t + k <= Capacity(machine.Size())
        invariant left == bindCoreNum - k && (k > 0 ==> left >= 0)
        invariant newMask == CoreSet(numaNode * machine.Size(), t, k)
        decreases left
      {
        newMask := newMask + {next};
        left := left - 1;
        next := next + 2;
        k := k + 1;
      }
    }

    /** BindCpuCore: one pass over the node's cores serves the waiting containers in order. */
    method BindCpuCore(numaNode: int, items: seq<Item>)
      modifies this`tuneThreads, this`affinity, this`calls
      ensures V() == BindCores(old(V()), machine.accepts, numaNode * machine.Size(), machine.Size(), items)
    {
      var coreIndex := numaNode * machine.Size();
      for i := 0 to |items|
        invariant coreIndex == numaNode * machine.Size() + 2 * Taken(machine.Size(), items[..i])
        invariant V() == BindCores(old(V()), machine.accepts, numaNode * machine.Size(), machine.Size(), items[..i])
      {
        PrefixStep(items, i);
        var newMask, next, left := TakeCores(numaNode, coreIndex, items[i].quota, Taken(machine.Size(), items[..i]));
        coreIndex := next;
        hide AttemptAll;
        if left <= 0 {
          SetAll(items[i].threads, newMask);
        }
      }
      assert items[..|items|] == items;
    }

    /** BindNuma. */
    method BindNuma(numaNode: int, tids: seq<int>)
      modifies this`tuneThreads, this`affinity, this`calls
      ensures V() == AttemptAll(old(V()), machine.accepts, tids, machine.MaskAt(numaNode))
    {
      SetAll(tids, machine.MaskAt(numaNode));
    }

    /** Writes back every record; restoring is assumed to succeed. */
    method RestoreAll()
      modifies this`tuneThreads, this`affinity
      ensures V() == old(V()).(threads := Restore(old(V()).threads))
    {
      affinity := map t | t in affinity :: if t in tuneThreads then tuneThreads[t] else affinity[t];
      tuneThreads := map[];
    }

    /** Disable: every live thread gets its own affinity back. */
    method Disable()
      requires Recorded(V().threads)
      modifies this`tuneThreads, this`affinity
      ensures affinity == original && tuneThreads == map[]
    {
      RestoreReturnsAll(V().threads);
      RestoreAll();
    }

    /** The part of Run for one node: too many whole CPUs in use, and everything is given back. */
    method RunNode(node: int, cpus: int, items: seq<Item>, tids: seq<int>)
      modifies this`tuneThreads, this`affinity, this`calls
      ensures V() == TuneNode(old(V()), machine.accepts, machine.Size(), node, cpus, items, tids, machine.MaskAt(node))
    {
      if cpus > machine.Size() / 2 {
        RestoreAll();
        return;
      }
      BindCpuCore(node, items);
      BindNuma(node, tids);
    }

    /** Drops the records of threads that no container lists any more. */
    method ClearDead(containerThreads: set<int>)
      modifies this`tuneThreads
      ensures V() == old(V()).(threads := Forget(old(V()).threads, containerThreads))
    {
      tuneThreads := map t | t in tuneThreads && t in containerThreads :: tuneThreads[t];
    }

    /** The threads of a container that ask for some cores, for all cores of the node, and for either. */
    method Sort(tasks: seq<int>, policy: map<int, int>) returns (bindCore: seq<int>, bindNuma: seq<int>, either: seq<int>)
      ensures bindCore == Waiting(policy, tasks) && bindNuma == Asking(policy, tasks, {NODE}) && either == Asking(policy, tasks, {NODE, CORES})
    {
      bindCore, bindNuma, either := [], [], [];
      for i := 0 to |tasks|
        invariant bindCore == Waiting(policy, tasks[..i]) && bindNuma == Asking(policy, tasks[..i], {NODE})
        invariant either == Asking(policy, tasks[..i], {NODE, CORES})
      {
        var j := tasks[i];
        assert Init(tasks[..i + 1]) == tasks[..i] && Last(tasks[..i + 1]) == j;
        if j in policy && (policy[j] == NODE || policy[j] == CORES) {
          either := either + [j];
          if policy[j] == NODE {
            bindNuma := bindNuma + [j];
          } else {
            bindCore := bindCore + [j];
          }
        }
      }
      assert tasks[..|tasks|] == tasks;
    }

    /** One container of FindSpecialBin: counted and grouped if it fills a node, its threads loosened if not. */
    method PlaceContainer(containers: seq<Container>, i: nat, policy: map<int, int>,
                          total: map<int, int>, cores: map<int, seq<Item>>, whole: map<int, seq<int>>)
        returns (dockerCpuOnNuma: map<int, int>, byCore: map<int, seq<Item>>, byNuma: map<int, seq<int>>)
      requires i < |containers| && Periods(containers) && Placed(machine, policy, containers[..i], total, cores, whole)
      modifies this`tuneThreads, this`affinity, this`calls
      ensures V() == LoosenOne(old(V()), machine, policy, containers[i])
      ensures Placed(machine, policy, containers[..i + 1], dockerCpuOnNuma, byCore, byNuma)
    {
      var c := containers[i];
      CountMore(total, machine.cpu2Numa, machine.Size(), containers, i);
      QueueMore(cores, machine.cpu2Numa, machine.Size(), policy, containers, i);
      GroupMore(whole, machine.cpu2Numa, machine.Size(), policy, containers, i);
      dockerCpuOnNuma, byCore, byNuma := total, cores, whole;
      var full := FullNode(machine.cpu2Numa, machine.Size(), c.cpus);
      var bindCore, bindNuma, either := Sort(c.tasks, policy);
      hide FullNode;
      hide Quota;
      hide Counted;
      hide Queued;
      hide Grouped;
      hide Present;
      hide Waiting;
      hide Asking;
      hide AttemptAll;
      match full {
        case Some(node) =>
          dockerCpuOnNuma := dockerCpuOnNuma[node := Lookup(dockerCpuOnNuma, node) + Quota(c)];
          if bindCore != [] {
            byCore := byCore[node := ItemsAt(byCore, node) + [Item(Quota(c), bindCore)]];
          }
          byNuma := byNuma[node := TidsAt(byNuma, node) + bindNuma];
        case None =>
          BindAllCores(either);
      }
      PresentMore(total, dockerCpuOnNuma, machine, containers, i);
    }

    /** FindSpecialBin: counts and groups the containers that fill a node, and loosens the others. */
    method FindSpecialBin(containers: seq<Container>, policy: map<int, int>)
        returns (dockerCpuOnNuma: map<int, int>, byCore: map<int, seq<Item>>, byNuma: map<int, seq<int>>)
      requires Periods(containers)
      modifies this`tuneThreads, this`affinity, this`calls
      ensures V() == Loosen(old(V()), machine, policy, containers)
      ensures Placed(machine, policy, containers, dockerCpuOnNuma, byCore, byNuma)
    {
      dockerCpuOnNuma, byCore, byNuma := map[], map[], map[];
      assert containers[..0] == [] && containers[..|containers|] == containers;
      hide LoosenOne;
      for i := 0 to |containers|
        invariant V() == Loosen(old(V()), machine, policy, containers[..i])
        invariant Placed(machine, policy, containers[..i], dockerCpuOnNuma, byCore, byNuma)
      {
        assert Init(containers[..i + 1]) == containers[..i] && Last(containers[..i + 1]) == containers[i];
        hide Placed;
        dockerCpuOnNuma, byCore, byNuma := PlaceContainer(containers, i, policy, dockerCpuOnNuma, byCore, byNuma);
      }
    }

    /** BindAllCores: threads of a container that does not fill a node may run anywhere. */
    method BindAllCores(tids: seq<int>)
      modifies this`tuneThreads, this`affinity, this`calls
      ensures V() == AttemptAll(old(V()), machine.accepts, tids, UpTo(machine.cpuCoreNum))
    {
      SetAll(tids, UpTo(machine.cpuCoreNum));
    }

    /** Run, over the nodes in the given order; nothing happens while some CPU is offline. */
    method Run(containers: seq<Container>, policy: map<int, int>, nodes: seq<int>, cpuNumOnline: nat)
      requires Periods(containers) && InOrder(machine, containers, nodes)
      modifies this`tuneThreads, this`affinity, this`calls
      ensures V() == if cpuNumOnline != machine.cpuCoreNum then old(V()) else Round(old(V()), machine, policy, containers, nodes)
    {
      if cpuNumOnline != machine.cpuCoreNum {
        return;
      }
      var total, byCore, byNuma := FindSpecialBin(containers, policy);
      ClearDead(AllTasks(containers));
      ghost var v := V();
      hide Loosen;
      hide Forget;
      for i := 0 to |nodes|
        invariant V() == TuneNodes(v, machine, policy, containers, nodes[..i])
      {
        var n := nodes[i];
        assert Init(nodes[..i + 1]) == nodes[..i];
        hide TuneNode;
        assert Lookup(total, n) == Total(machine.cpu2Numa, machine.Size(), containers, n);
        assert ItemsAt(byCore, n) == Items(machine.cpu2Numa, machine.Size(), policy, containers, n);
        assert TidsAt(byNuma, n) == NodeThreads(machine.cpu2Numa, machine.Size(), policy, containers, n);
        if n in total {
          RunNode(n, total[n], ItemsAt(byCore, n), TidsAt(byNuma, n));
        }
      }
      assert nodes[..|nodes|] == nodes;
    }
  }
}
