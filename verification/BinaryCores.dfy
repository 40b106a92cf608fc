/** How binary_tune.cpp hands out the physical cores of a NUMA node, and counts what containers may use. */
module BinaryCores {
  import opened Seqs

  /** Threads of one container waiting for cores, and how many. */
  datatype Item = Item(quota: int, threads: seq<int>)

  function Positive(q: int): nat {
    if q > 0 then q else 0
  }

  /** Cores of a node of `size` logical CPUs: the CPUs at even offsets. */
  function Capacity(size: nat): nat {
    (size + 1) / 2
  }

  function Wanted(items: seq<Item>): nat {
    if |items| == 0 then 0 else Wanted(Init(items)) + Positive(Last(items).quota)
  }

  /** How many cores have been passed once the items have been served; the index stops at the end of the node. */
  function Taken(size: nat, items: seq<Item>): (t: nat)
    ensures t <= Capacity(size)
  {
    if |items| == 0 then 0
    else
      var t := Taken(size, Init(items)) + Positive(Last(items).quota);
      if t <= Capacity(size) then t else Capacity(size)
  }

  /** `count` cores of a node, from the t-th on. */
  function CoreSet(base: int, t: nat, count: nat): (r: set<int>)
    ensures forall c :: c in r <==> base + 2 * t <= c < base + 2 * (t + count) && (c - base) % 2 == 0
  {
    if count == 0 then {} else CoreSet(base, t, count - 1) + {base + 2 * (t + count - 1)}
  }

  /** The cores item i is bound to; None when there are too few left. */
  ghost function MaskOf(base: int, size: nat, items: seq<Item>, i: nat): Option<set<int>>
    requires i < |items|
  {
    var t, q := Taken(size, items[..i]), Positive(items[i].quota);
    if t + q <= Capacity(size) then Some(CoreSet(base, t, q)) else None
  }

  lemma PrefixStep(items: seq<Item>, i: nat)
    requires i < |items|
    ensures Init(items[..i + 1]) == items[..i] && Last(items[..i + 1]) == items[i]
  {
  }

  lemma {:induction false} TakenIsWanted(size: nat, items: seq<Item>)
    ensures Taken(size, items) == if Wanted(items) <= Capacity(size) then Wanted(items) else Capacity(size)
    decreases |items|
  {
    if |items| > 0 {
      TakenIsWanted(size, Init(items));
    }
  }

  lemma {:induction false} WantedGrows(items: seq<Item>, i: nat, j: nat)
    requires i <= j <= |items|
    ensures Wanted(items[..i]) <= Wanted(items[..j])
    decreases j
  {
    if i < j {
      PrefixStep(items, j - 1);
      WantedGrows(items, i, j - 1);
    }
  }

  lemma {:induction false} FirstTooMany(cap: nat, items: seq<Item>, n: nat) returns (i: nat)
    requires n <= |items| && Wanted(items[..n]) > cap
    ensures i < n && Wanted(items[..i]) <= cap < Wanted(items[..i]) + Positive(items[i].quota)
    decreases n
  {
    assert items[..0] == [];
    PrefixStep(items, n - 1);
    if Wanted(items[..n - 1]) <= cap {
      i := n - 1;
    } else {
      i := FirstTooMany(cap, items, n - 1);
    }
  }

  /** Every waiting container gets its cores exactly when together they want no more than the node has. */
  lemma AllBoundExactly(base: int, size: nat, items: seq<Item>)
    ensures (forall i :: 0 <= i < |items| ==> MaskOf(base, size, items, i).Some?) <==> Wanted(items) <= Capacity(size)
  {
    assert items[..|items|] == items;
    if Wanted(items) <= Capacity(size) {
      forall i | 0 <= i < |items| ensures MaskOf(base, size, items, i).Some? {
        TakenIsWanted(size, items[..i]);
        PrefixStep(items, i);
        WantedGrows(items, i + 1, |items|);
        WantedGrows(items, i, |items|);
      }
    } else {
      var i := FirstTooMany(Capacity(size), items, |items|);
      TakenIsWanted(size, items[..i]);
      assert MaskOf(base, size, items, i).None?;
    }
  }

  lemma {:induction false} CoreSetSize(base: int, t: nat, count: nat)
    ensures |CoreSet(base, t, count)| == count
    decreases count
  {
    if count > 0 {
      CoreSetSize(base, t, count - 1);
    }
  }

  /** A binding is as large as the quota, and made of even offsets inside the node. */
  lemma MaskFacts(base: int, size: nat, items: seq<Item>, i: nat)
    requires i < |items| && MaskOf(base, size, items, i).Some?
    ensures var m := MaskOf(base, size, items, i).value;
            |m| == Positive(items[i].quota) && forall c :: c in m ==> base <= c < base + size && (c - base) % 2 == 0
  {
    CoreSetSize(base, Taken(size, items[..i]), Positive(items[i].quota));
  }

  lemma {:induction false} TakenGrows(size: nat, items: seq<Item>, i: nat, j: nat)
    requires i < j <= |items| && Taken(size, items[..i]) + Positive(items[i].quota) <= Capacity(size)
    ensures Taken(size, items[..i]) + Positive(items[i].quota) <= Taken(size, items[..j])
    decreases j
  {
    PrefixStep(items, j - 1);
    if i < j - 1 {
      TakenGrows(size, items, i, j - 1);
    }
  }

  /** No core is given to two containers. */
  lemma MasksDisjoint(base: int, size: nat, items: seq<Item>, i: nat, j: nat)
    requires i < j < |items| && MaskOf(base, size, items, i).Some? && MaskOf(base, size, items, j).Some?
    ensures MaskOf(base, size, items, i).value !! MaskOf(base, size, items, j).value
  {
    TakenGrows(size, items, i, j);
  }

  // ---------- Which containers count ----------

  datatype Container = Container(cpus: seq<int>, quotaUs: int, periodUs: int, tasks: seq<int>)

  /** Division as in the source: towards zero. */
  function TruncDiv(a: int, b: int): int
    requires b > 0
  {
    if a >= 0 then a / b else -((-a) / b)
  }

  /** Whole CPUs a container may use. */
  function Quota(c: Container): int
    requires c.periodUs > 0
  {
    TruncDiv(c.quotaUs, c.periodUs)
  }

  function NumaOf(cpu2Numa: map<int, int>, cpu: int): int {
    if cpu in cpu2Numa then cpu2Numa[cpu] else 0
  }

  /** The node all of whose `size` CPUs the container has, if any. */
  function FullNode(cpu2Numa: map<int, int>, size: int, cpus: seq<int>): Option<int> {
    if |cpus| > 0 && |cpus| == size && forall cpu :: cpu in cpus ==> NumaOf(cpu2Numa, cpu) == NumaOf(cpu2Numa, cpus[0])
    then Some(NumaOf(cpu2Numa, cpus[0])) else None
  }

  ghost predicate Periods(cs: seq<Container>) {
    forall i :: 0 <= i < |cs| ==> cs[i].periodUs > 0
  }

  /** Whole CPUs of all containers filling node n. */
  ghost function Total(cpu2Numa: map<int, int>, size: int, cs: seq<Container>, n: int): int
    requires Periods(cs)
  {
    if |cs| == 0 then 0
    else Total(cpu2Numa, size, Init(cs), n) + (if FullNode(cpu2Numa, size, Last(cs).cpus) == Some(n) then Quota(Last(cs)) else 0)
  }

  /** What the executable of a thread asks for: all cores of the node, or some cores. */
  const NODE: int := 1
  const CORES: int := 2

  /** The threads of a container whose executables ask for one of `what`, in order. */
  function Asking(policy: map<int, int>, tasks: seq<int>, what: set<int>): seq<int> {
    if |tasks| == 0 then []
    else
      var t := Last(tasks);
      Asking(policy, Init(tasks), what) + (if t in policy && policy[t] in what then [t] else [])
  }

  /** The threads of a container that wait for some cores. */
  function Waiting(policy: map<int, int>, tasks: seq<int>): seq<int> {
    Asking(policy, tasks, {CORES})
  }

  /** The threads of node n that ask for all its cores. */
  ghost function NodeThreads(cpu2Numa: map<int, int>, size: int, policy: map<int, int>, cs: seq<Container>, n: int): seq<int> {
    if |cs| == 0 then []
    else
      NodeThreads(cpu2Numa, size, policy, Init(cs), n) +
      (if FullNode(cpu2Numa, size, Last(cs).cpus) == Some(n) then Asking(policy, Last(cs).tasks, {NODE}) else [])
  }

  /** The waiting containers of node n, in order. */
  ghost function Items(cpu2Numa: map<int, int>, size: int, policy: map<int, int>, cs: seq<Container>, n: int): seq<Item>
    requires Periods(cs)
  {
    if |cs| == 0 then []
    else
      var c := Last(cs);
      Items(cpu2Numa, size, policy, Init(cs), n) +
      (if FullNode(cpu2Numa, size, c.cpus) == Some(n) && Waiting(policy, c.tasks) != [] then [Item(Quota(c), Waiting(policy, c.tasks))] else [])
  }

  /** All threads of all containers. */
  function AllTasks(cs: seq<Container>): (r: set<int>)
    ensures forall i, t :: 0 <= i < |cs| && t in cs[i].tasks ==> t in r
  {
    if |cs| == 0 then {} else AllTasks(Init(cs)) + SetOfTasks(Last(cs).tasks)
  }

  function SetOfTasks(tasks: seq<int>): set<int> {
    set t | t in tasks
  }

  /** What one more container adds to the count of a node. */
  lemma TotalMore(cpu2Numa: map<int, int>, size: int, cs: seq<Container>, i: nat, n: int)
    requires i < |cs| && Periods(cs) && Periods(cs[..i]) && Periods(cs[..i + 1])
    ensures Total(cpu2Numa, size, cs[..i + 1], n) ==
              Total(cpu2Numa, size, cs[..i], n) + (if FullNode(cpu2Numa, size, cs[i].cpus) == Some(n) then Quota(cs[i]) else 0)
  {
    assert Init(cs[..i + 1]) == cs[..i] && Last(cs[..i + 1]) == cs[i];
    hide FullNode;
    hide Quota;
  }

  /** ... and to its waiting containers. */
  lemma ItemsMore(cpu2Numa: map<int, int>, size: int, policy: map<int, int>, cs: seq<Container>, i: nat, n: int)
    requires i < |cs| && Periods(cs) && Periods(cs[..i]) && Periods(cs[..i + 1])
    ensures var c, before := cs[i], Items(cpu2Numa, size, policy, cs[..i], n);
            Items(cpu2Numa, size, policy, cs[..i + 1], n) ==
              if FullNode(cpu2Numa, size, c.cpus) == Some(n) && Waiting(policy, c.tasks) != []
              then before + [Item(Quota(c), Waiting(policy, c.tasks))] else before
  {
    assert Init(cs[..i + 1]) == cs[..i] && Last(cs[..i + 1]) == cs[i];
    assert Items(cpu2Numa, size, policy, cs[..i], n) + [] == Items(cpu2Numa, size, policy, cs[..i], n);
    hide FullNode;
    hide Quota;
    hide Waiting;
  }

  /** ... and to the threads that ask for the whole node. */
  lemma NodeThreadsMore(cpu2Numa: map<int, int>, size: int, policy: map<int, int>, cs: seq<Container>, i: nat, n: int)
    requires i < |cs|
    ensures NodeThreads(cpu2Numa, size, policy, cs[..i + 1], n) ==
              NodeThreads(cpu2Numa, size, policy, cs[..i], n) +
              (if FullNode(cpu2Numa, size, cs[i].cpus) == Some(n) then Asking(policy, cs[i].tasks, {NODE}) else [])
  {
    assert Init(cs[..i + 1]) == cs[..i] && Last(cs[..i + 1]) == cs[i];
    hide FullNode;
    hide Asking;
  }

  /** Quotas are positive, or -1 for "unlimited", which counts as no whole CPU. */
  ghost predicate Sensible(cs: seq<Container>) {
    forall i :: 0 <= i < |cs| ==> cs[i].periodUs > 1 && cs[i].quotaUs >= -1
  }

  lemma {:induction false} WaitingWithinTotal(cpu2Numa: map<int, int>, size: int, policy: map<int, int>, cs: seq<Container>, n: int)
    requires Sensible(cs) && Periods(cs)
    ensures 0 <= Wanted(Items(cpu2Numa, size, policy, cs, n)) <= Total(cpu2Numa, size, cs, n)
    decreases |cs|
  {
    if |cs| > 0 {
      var c, before := Last(cs), Items(cpu2Numa, size, policy, Init(cs), n);
      assert Sensible(Init(cs)) && Periods(Init(cs));
      WaitingWithinTotal(cpu2Numa, size, policy, Init(cs), n);
      QuotaNotNegative(c);
      var item := Item(Quota(c), Waiting(policy, c.tasks));
      assert before + [] == before;
      assert Init(before + [item]) == before && Last(before + [item]) == item;
    }
  }

  lemma QuotaNotNegative(c: Container)
    requires c.periodUs > 1 && c.quotaUs >= -1
    ensures Quota(c) >= 0
  {
    if c.quotaUs == -1 {
      assert 1 / c.periodUs == 0;
    }
  }

  /** Every item is bound to exactly its quota of cores, all inside the node at even offsets, none shared. */
  ghost predicate AllServed(base: int, size: nat, items: seq<Item>) {
    && (forall i :: 0 <= i < |items| ==> MaskOf(base, size, items, i).Some? && |MaskOf(base, size, items, i).value| == items[i].quota)
    && (forall i, c :: 0 <= i < |items| && MaskOf(base, size, items, i).Some? && c in MaskOf(base, size, items, i).value ==>
          base <= c < base + size && (c - base) % 2 == 0)
    && (forall i, j :: 0 <= i < j < |items| && MaskOf(base, size, items, i).Some? && MaskOf(base, size, items, j).Some? ==>
          MaskOf(base, size, items, i).value !! MaskOf(base, size, items, j).value)
  }

  lemma EnoughCores(base: int, size: nat, items: seq<Item>)
    requires Wanted(items) <= Capacity(size) && forall i :: 0 <= i < |items| ==> items[i].quota >= 0
    ensures AllServed(base, size, items)
  {
    AllBoundExactly(base, size, items);
    hide MaskOf;
    forall i | 0 <= i < |items|
      ensures MaskOf(base, size, items, i).Some? && |MaskOf(base, size, items, i).value| == items[i].quota
      ensures forall c :: c in MaskOf(base, size, items, i).value ==> base <= c < base + size && (c - base) % 2 == 0
    {
      MaskFacts(base, size, items, i);
    }
    forall i, j | 0 <= i < j < |items| && MaskOf(base, size, items, i).Some? && MaskOf(base, size, items, j).Some?
      ensures MaskOf(base, size, items, i).value !! MaskOf(base, size, items, j).value
    {
      MasksDisjoint(base, size, items, i, j);
    }
  }

  /** When a node's whole-CPU quotas add up to at most half its logical CPUs, every waiting container is served. */
  lemma BindingFits(cpu2Numa: map<int, int>, size: nat, policy: map<int, int>, cs: seq<Container>, n: int, base: int)
    requires Sensible(cs) && Periods(cs) && Total(cpu2Numa, size, cs, n) <= size / 2
    ensures AllServed(base, size, Items(cpu2Numa, size, policy, cs, n))
  {
    WaitingWithinTotal(cpu2Numa, size, policy, cs, n);
    ItemsNotNegative(cpu2Numa, size, policy, cs, n);
    EnoughCores(base, size, Items(cpu2Numa, size, policy, cs, n));
    hide Items;
    hide AllServed;
  }

  lemma {:induction false} ItemsNotNegative(cpu2Numa: map<int, int>, size: int, policy: map<int, int>, cs: seq<Container>, n: int)
    requires Sensible(cs) && Periods(cs)
    ensures forall i :: 0 <= i < |Items(cpu2Numa, size, policy, cs, n)| ==> Items(cpu2Numa, size, policy, cs, n)[i].quota >= 0
    decreases |cs|
  {
    if |cs| > 0 {
      assert Sensible(Init(cs)) && Periods(Init(cs));
      ItemsNotNegative(cpu2Numa, size, policy, Init(cs), n);
      QuotaNotNegative(Last(cs));
    }
  }
}
