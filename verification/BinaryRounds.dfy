/** What a round of binary_tune.cpp does to each thread, and what runs of rounds keep. */
module BinaryRounds {
  import opened Seqs
  import opened BinaryCores
  import opened BinaryTune

  // ---------- What the steps keep ----------

  /** Same live threads, same own affinities, and every thread that could be restored still can. */
  ghost predicate Follows(s: Threads, r: Threads) {
    && r.affinity.Keys == s.affinity.Keys && r.original == s.original
    && forall t :: RecordedAt(s, t) ==> RecordedAt(r, t)
  }

  /** Nothing has happened to thread t. */
  ghost predicate Skipped(s: Threads, r: Threads, t: int) {
    && (t in r.tuned <==> t in s.tuned) && (t in r.affinity <==> t in s.affinity)
    && (t in s.affinity ==> r.affinity[t] == s.affinity[t])
  }

  lemma {:induction false} AttemptAllFollows(v: Tuning, accepts: Oracle, tids: seq<int>, m: Mask)
    ensures Follows(v.threads, AttemptAll(v, accepts, tids, m).threads)
    decreases |tids|
  {
    if |tids| > 0 {
      AttemptAllFollows(v, accepts, Init(tids), m);
    }
  }

  lemma {:induction false} AttemptAllSkips(v: Tuning, accepts: Oracle, tids: seq<int>, m: Mask, t: int)
    requires t !in tids
    ensures Skipped(v.threads, AttemptAll(v, accepts, tids, m).threads, t)
    decreases |tids|
  {
    if |tids| > 0 {
      InitLast(tids);
      AttemptAllSkips(v, accepts, Init(tids), m, t);
    }
  }

  lemma {:induction false} BindCoresFollows(v: Tuning, accepts: Oracle, base: int, size: nat, items: seq<Item>)
    ensures Follows(v.threads, BindCores(v, accepts, base, size, items).threads)
    decreases |items|
  {
    if |items| > 0 {
      BindCoresFollows(v, accepts, base, size, Init(items));
      var before, k, q := BindCores(v, accepts, base, size, Init(items)), Taken(size, Init(items)), Positive(Last(items).quota);
      AttemptAllFollows(before, accepts, Last(items).threads, CoreSet(base, k, q));
      hide AttemptAll;
      hide RecordedAt;
    }
  }

  /** The item is served and thread t waits in it. */
  ghost predicate ServedIn(base: int, size: nat, items: seq<Item>, i: nat, t: int)
    requires i < |items|
  {
    t in items[i].threads && MaskOf(base, size, items, i).Some?
  }

  lemma {:induction false} BindCoresSkips(v: Tuning, accepts: Oracle, base: int, size: nat, items: seq<Item>, t: int)
    requires forall i: nat :: i < |items| ==> !ServedIn(base, size, items, i, t)
    ensures Skipped(v.threads, BindCores(v, accepts, base, size, items).threads, t)
    decreases |items|
  {
    if |items| > 0 {
      var before, k, q := BindCores(v, accepts, base, size, Init(items)), Taken(size, Init(items)), Positive(Last(items).quota);
      forall i: nat | i < |items| - 1 ensures !ServedIn(base, size, Init(items), i, t) {
        assert Init(items)[..i] == items[..i] && !ServedIn(base, size, items, i, t);
      }
      BindCoresSkips(v, accepts, base, size, Init(items), t);
      assert items[..|items| - 1] == Init(items) && !ServedIn(base, size, items, |items| - 1, t);
      if t !in Last(items).threads {
        AttemptAllSkips(before, accepts, Last(items).threads, CoreSet(base, k, q), t);
      }
      hide AttemptAll;
    }
  }

  // ---------- One node of a round ----------

  ghost function NodeItems(m: Machine, policy: map<int, int>, cs: seq<Container>, n: int): seq<Item>
    requires Periods(cs)
  {
    Items(m.cpu2Numa, m.Size(), policy, cs, n)
  }

  ghost function WholeNode(m: Machine, policy: map<int, int>, cs: seq<Container>, n: int): seq<int> {
    NodeThreads(m.cpu2Numa, m.Size(), policy, cs, n)
  }

  /** The containers filling the node may use more whole CPUs than it has cores. */
  ghost predicate Over(m: Machine, cs: seq<Container>, n: int)
    requires Periods(cs)
  {
    Total(m.cpu2Numa, m.Size(), cs, n) > m.Size() / 2
  }

  /** Binding on node n sets thread t. */
  ghost predicate SetOn(m: Machine, policy: map<int, int>, cs: seq<Container>, n: int, t: int)
    requires Periods(cs)
  {
    || t in WholeNode(m, policy, cs, n)
    || exists i: nat :: i < |NodeItems(m, policy, cs, n)| && ServedIn(n * m.Size(), m.Size(), NodeItems(m, policy, cs, n), i, t)
  }

  /** The part of a round for node n. */
  ghost function Visit(v: Tuning, m: Machine, policy: map<int, int>, cs: seq<Container>, n: int): Tuning
    requires Periods(cs)
  {
    if Filled(m, cs, n) then
      TuneNode(v, m.accepts, m.Size(), n, Total(m.cpu2Numa, m.Size(), cs, n), NodeItems(m, policy, cs, n), WholeNode(m, policy, cs, n),
               m.MaskAt(n))
    else v
  }

  lemma TuneNodesStep(v: Tuning, m: Machine, policy: map<int, int>, cs: seq<Container>, nodes: seq<int>)
    requires Periods(cs) && |nodes| > 0
    ensures TuneNodes(v, m, policy, cs, nodes) == Visit(TuneNodes(v, m, policy, cs, Init(nodes)), m, policy, cs, Last(nodes))
  {
    hide TuneNode;
    hide Filled;
  }

  lemma VisitFollows(v: Tuning, m: Machine, policy: map<int, int>, cs: seq<Container>, n: int)
    requires Periods(cs)
    ensures Follows(v.threads, Visit(v, m, policy, cs, n).threads)
  {
    var items := NodeItems(m, policy, cs, n);
    BindCoresFollows(v, m.accepts, n * m.Size(), m.Size(), items);
    AttemptAllFollows(BindCores(v, m.accepts, n * m.Size(), m.Size(), items), m.accepts, WholeNode(m, policy, cs, n), m.MaskAt(n));
    hide AttemptAll;
    hide BindCores;
    hide NodeItems;
    hide WholeNode;
    hide Filled;
    hide Total;
  }

  /** A node that does not set a thread leaves it alone, or gives it back its own affinity when over capacity. */
  lemma VisitSkips(v: Tuning, m: Machine, policy: map<int, int>, cs: seq<Container>, n: int, t: int)
    requires Periods(cs)
    ensures var w := Visit(v, m, policy, cs, n).threads;
            && (!SetOn(m, policy, cs, n, t) && !(Filled(m, cs, n) && Over(m, cs, n)) ==> Skipped(v.threads, w, t))
            && (Filled(m, cs, n) && Over(m, cs, n) && RecordedAt(v.threads, t) ==> t in w.affinity && w.affinity[t] == v.threads.original[t])
            && (!SetOn(m, policy, cs, n, t) && t !in v.threads.tuned ==> Skipped(v.threads, w, t))
  {
    if !SetOn(m, policy, cs, n, t) {
      var items := NodeItems(m, policy, cs, n);
      BindCoresSkips(v, m.accepts, n * m.Size(), m.Size(), items, t);
      AttemptAllSkips(BindCores(v, m.accepts, n * m.Size(), m.Size(), items), m.accepts, WholeNode(m, policy, cs, n), m.MaskAt(n), t);
    }
    hide AttemptAll;
    hide BindCores;
    hide NodeItems;
    hide WholeNode;
    hide Filled;
    hide Total;
  }

  // ---------- The nodes in order ----------

  lemma {:induction false} TuneNodesFollows(v: Tuning, m: Machine, policy: map<int, int>, cs: seq<Container>, nodes: seq<int>)
    requires Periods(cs)
    ensures Follows(v.threads, TuneNodes(v, m, policy, cs, nodes).threads)
    decreases |nodes|
  {
    if |nodes| > 0 {
      TuneNodesFollows(v, m, policy, cs, Init(nodes));
      TuneNodesStep(v, m, policy, cs, nodes);
      VisitFollows(TuneNodes(v, m, policy, cs, Init(nodes)), m, policy, cs, Last(nodes));
      hide TuneNodes;
      hide Visit;
      hide RecordedAt;
    }
  }

  /** No node from position p on sets thread t. */
  ghost predicate NeverSet(m: Machine, policy: map<int, int>, cs: seq<Container>, nodes: seq<int>, p: nat, t: int)
    requires Periods(cs)
  {
    forall i :: p <= i < |nodes| ==> !SetOn(m, policy, cs, nodes[i], t)
  }

  ghost predicate NoneOver(m: Machine, cs: seq<Container>, nodes: seq<int>)
    requires Periods(cs)
  {
    forall i :: 0 <= i < |nodes| ==> !(Filled(m, cs, nodes[i]) && Over(m, cs, nodes[i]))
  }

  /** A thread no node sets is left alone when no node is over capacity, and also when there is no record of it. */
  lemma {:induction false} TuneNodesSkips(v: Tuning, m: Machine, policy: map<int, int>, cs: seq<Container>, nodes: seq<int>, t: int)
    requires Periods(cs) && NeverSet(m, policy, cs, nodes, 0, t) && (NoneOver(m, cs, nodes) || t !in v.threads.tuned)
    ensures Skipped(v.threads, TuneNodes(v, m, policy, cs, nodes).threads, t)
    decreases |nodes|
  {
    hide SetOn;
    hide Over;
    hide Filled;
    if |nodes| > 0 {
      TuneNodesSkips(v, m, policy, cs, Init(nodes), t);
      TuneNodesStep(v, m, policy, cs, nodes);
      assert nodes[|nodes| - 1] == Last(nodes);
      VisitSkips(TuneNodes(v, m, policy, cs, Init(nodes)), m, policy, cs, Last(nodes), t);
      hide TuneNodes;
      hide Visit;
    }
  }

  /** An over-capacity node gives back every thread that no later node sets, wherever the node comes in the order. */
  lemma {:induction false} OverCapacityReturns(v: Tuning, m: Machine, policy: map<int, int>, cs: seq<Container>, nodes: seq<int>, p: nat, t: int)
    requires Periods(cs) && RecordedAt(v.threads, t) && p < |nodes|
    requires Filled(m, cs, nodes[p]) && Over(m, cs, nodes[p]) && NeverSet(m, policy, cs, nodes, p + 1, t)
    ensures var w := TuneNodes(v, m, policy, cs, nodes).threads;
            t in w.affinity && w.affinity[t] == v.threads.original[t]
    decreases |nodes|
  {
    hide SetOn;
    hide Over;
    hide Filled;
    var before, n := TuneNodes(v, m, policy, cs, Init(nodes)), Last(nodes);
    TuneNodesFollows(v, m, policy, cs, Init(nodes));
    TuneNodesStep(v, m, policy, cs, nodes);
    VisitSkips(before, m, policy, cs, n, t);
    assert RecordedAt(before.threads, t);
    if p < |nodes| - 1 {
      OverCapacityReturns(v, m, policy, cs, Init(nodes), p, t);
    }
    hide TuneNodes;
    hide Visit;
  }

  // ---------- Which threads a node sets ----------

  lemma {:induction false} AskingMember(policy: map<int, int>, tasks: seq<int>, what: set<int>, t: int)
    ensures t in Asking(policy, tasks, what) <==> t in tasks && t in policy && policy[t] in what
    decreases |tasks|
  {
    if |tasks| > 0 {
      InitLast(tasks);
      AskingMember(policy, Init(tasks), what, t);
    }
  }

  /** Thread t is listed by container k, if by any. */
  ghost predicate Only(cs: seq<Container>, k: nat, t: int) {
    forall j :: 0 <= j < |cs| && j != k ==> t !in cs[j].tasks
  }

  lemma OnlyInit(cs: seq<Container>, k: nat, t: int)
    requires |cs| > 0 && Only(cs, k, t)
    ensures Only(Init(cs), k, t) && (k != |cs| - 1 ==> t !in Last(cs).tasks)
  {
  }

  /** The item of container k stands behind those of the earlier containers. */
  lemma {:induction false} ItemOf(cpu2Numa: map<int, int>, size: int, policy: map<int, int>, cs: seq<Container>, n: int, k: nat)
    requires Periods(cs) && k < |cs| && Periods(cs[..k])
    requires FullNode(cpu2Numa, size, cs[k].cpus) == Some(n) && Waiting(policy, cs[k].tasks) != []
    ensures var i, items := |Items(cpu2Numa, size, policy, cs[..k], n)|, Items(cpu2Numa, size, policy, cs, n);
            i < |items| && items[i] == Item(Quota(cs[k]), Waiting(policy, cs[k].tasks))
    decreases |cs|
  {
    hide FullNode;
    hide Waiting;
    hide Quota;
    if k == |cs| - 1 {
      assert cs[..k] == Init(cs);
    } else {
      assert Init(cs)[..k] == cs[..k] && Init(cs)[k] == cs[k];
      ItemOf(cpu2Numa, size, policy, Init(cs), n, k);
    }
  }

  /** A thread of container k only can wait in no other item. */
  lemma {:induction false} ItemOnly(cpu2Numa: map<int, int>, size: int, policy: map<int, int>, cs: seq<Container>, n: int, k: nat, t: int, i: nat)
    requires Periods(cs) && k < |cs| && Periods(cs[..k]) && Only(cs, k, t)
    requires i < |Items(cpu2Numa, size, policy, cs, n)| && t in Items(cpu2Numa, size, policy, cs, n)[i].threads
    ensures FullNode(cpu2Numa, size, cs[k].cpus) == Some(n) && t in Waiting(policy, cs[k].tasks)
    ensures i == |Items(cpu2Numa, size, policy, cs[..k], n)|
    decreases |cs|
  {
    hide FullNode;
    hide Quota;
    OnlyInit(cs, k, t);
    AskingMember(policy, Last(cs).tasks, {CORES}, t);
    hide Asking;
    assert k < |cs| - 1 ==> Init(cs)[..k] == cs[..k];
    assert Init(cs) == cs[..|cs| - 1];
    if i < |Items(cpu2Numa, size, policy, Init(cs), n)| {
      if k == |cs| - 1 {
        ItemNone(cpu2Numa, size, policy, Init(cs), n, t, i);
      } else {
        ItemOnly(cpu2Numa, size, policy, Init(cs), n, k, t, i);
      }
    }
  }

  lemma {:induction false} ItemNone(cpu2Numa: map<int, int>, size: int, policy: map<int, int>, cs: seq<Container>, n: int, t: int, i: nat)
    requires Periods(cs) && (forall j :: 0 <= j < |cs| ==> t !in cs[j].tasks)
    requires i < |Items(cpu2Numa, size, policy, cs, n)|
    ensures t !in Items(cpu2Numa, size, policy, cs, n)[i].threads
    decreases |cs|
  {
    hide FullNode;
    hide Quota;
    AskingMember(policy, Last(cs).tasks, {CORES}, t);
    hide Asking;
    if i < |Items(cpu2Numa, size, policy, Init(cs), n)| {
      ItemNone(cpu2Numa, size, policy, Init(cs), n, t, i);
    }
  }

  lemma {:induction false} WholeOnly(cpu2Numa: map<int, int>, size: int, policy: map<int, int>, cs: seq<Container>, n: int, k: nat, t: int)
    requires Only(cs, k, t)
    ensures t in NodeThreads(cpu2Numa, size, policy, cs, n) <==>
            k < |cs| && FullNode(cpu2Numa, size, cs[k].cpus) == Some(n) && t in Asking(policy, cs[k].tasks, {NODE})
    decreases |cs|
  {
    hide FullNode;
    if |cs| > 0 {
      OnlyInit(cs, k, t);
      AskingMember(policy, Last(cs).tasks, {NODE}, t);
      WholeOnly(cpu2Numa, size, policy, Init(cs), n, k, t);
      hide Asking;
    }
  }

  // ---------- What a round does to a listed thread ----------

  ghost predicate AllAccepted(accepts: Oracle) {
    forall k: nat :: accepts(k)
  }

  /** When no attempt fails, every listed live thread has the mask and no other thread has changed. */
  lemma {:induction false} AllAttempted(v: Tuning, accepts: Oracle, tids: seq<int>, m: Mask, t: int)
    requires AllAccepted(accepts) && t in v.threads.affinity
    ensures var w := AttemptAll(v, accepts, tids, m).threads.affinity;
            t in w && w[t] == if t in tids then m else v.threads.affinity[t]
    decreases |tids|
  {
    if |tids| > 0 {
      AllAttempted(v, accepts, Init(tids), m, t);
      assert t in tids <==> t in Init(tids) || t == Last(tids);
    }
  }

  /** A thread waiting in one item only ends up with the cores of that item. */
  lemma {:induction false} ThreadBound(v: Tuning, accepts: Oracle, base: int, size: nat, items: seq<Item>, i: nat, t: int)
    requires AllAccepted(accepts) && t in v.threads.affinity && i < |items| && t in items[i].threads
    requires MaskOf(base, size, items, i).Some? && forall j :: i < j < |items| ==> t !in items[j].threads
    ensures var w := BindCores(v, accepts, base, size, items).threads.affinity;
            t in w && w[t] == MaskOf(base, size, items, i).value
    decreases |items|
  {
    var before, k, q := BindCores(v, accepts, base, size, Init(items)), Taken(size, Init(items)), Positive(Last(items).quota);
    BindCoresFollows(v, accepts, base, size, Init(items));
    if i == |items| - 1 {
      assert items[..i] == Init(items);
    } else {
      assert Init(items)[..i] == items[..i];
      ThreadBound(v, accepts, base, size, Init(items), i, t);
    }
    AllAttempted(before, accepts, Last(items).threads, CoreSet(base, k, q), t);
    hide AttemptAll;
  }

  /** The thread's executable asks for cores. */
  predicate Asks(policy: map<int, int>, t: int) {
    t in policy && policy[t] in {NODE, CORES}
  }

  /** The node that container k fills, if any. */
  function Home(m: Machine, cs: seq<Container>, k: nat): Option<int>
    requires k < |cs|
  {
    FullNode(m.cpu2Numa, m.Size(), cs[k].cpus)
  }

  /**
   * The affinity a round chooses for a thread of container k: any CPU when the container fills no node, all cores of the
   * node or the container's share of them when it does; nothing when it does not ask or too few cores are left.
   */
  ghost function Chosen(m: Machine, policy: map<int, int>, cs: seq<Container>, k: nat, t: int): Option<Mask>
    requires Periods(cs) && k < |cs| && t in cs[k].tasks
  {
    if !Asks(policy, t) then None
    else
      match Home(m, cs, k)
      case None => Some(UpTo(m.cpuCoreNum))
      case Some(n) =>
        if policy[t] == NODE then Some(m.MaskAt(n))
        else
          MorePeriods(cs, k);
          ItemHome(m, policy, cs, n, k, t);
          MaskOf(n * m.Size(), m.Size(), NodeItems(m, policy, cs, n), |NodeItems(m, policy, cs[..k], n)|)
  }

  /** Some node over capacity is visited no earlier than the thread was set. */
  ghost predicate Undone(m: Machine, policy: map<int, int>, cs: seq<Container>, k: nat, t: int)
    requires Periods(cs) && k < |cs| && t in cs[k].tasks
  {
    exists n :: Over(m, cs, n) && !(Home(m, cs, k).Some? && Chosen(m, policy, cs, k, t).Some? && n < Home(m, cs, k).value)
  }

  lemma ItemHome(m: Machine, policy: map<int, int>, cs: seq<Container>, n: int, k: nat, t: int)
    requires Periods(cs) && k < |cs| && Periods(cs[..k])
    requires Home(m, cs, k) == Some(n) && t in cs[k].tasks && t in policy && policy[t] == CORES
    ensures var i, items := |NodeItems(m, policy, cs[..k], n)|, NodeItems(m, policy, cs, n);
            i < |items| && items[i] == Item(Quota(cs[k]), Waiting(policy, cs[k].tasks)) && t in items[i].threads
  {
    AskingMember(policy, cs[k].tasks, {CORES}, t);
    ItemOf(m.cpu2Numa, m.Size(), policy, cs, n, k);
  }

  lemma {:induction false} FilledBy(m: Machine, cs: seq<Container>, k: nat, n: int)
    requires k < |cs| && Home(m, cs, k) == Some(n)
    ensures Filled(m, cs, n)
    decreases |cs|
  {
    hide FullNode;
    if k < |cs| - 1 {
      assert Init(cs)[k] == cs[k];
      FilledBy(m, Init(cs), k, n);
    }
  }

  lemma {:induction false} OverIsFilled(m: Machine, cs: seq<Container>, n: int)
    requires Periods(cs)
    ensures Filled(m, cs, n) || Total(m.cpu2Numa, m.Size(), cs, n) == 0
    decreases |cs|
  {
    hide FullNode;
    if |cs| > 0 {
      OverIsFilled(m, Init(cs), n);
    }
  }

  /** A thread of one container is set only on the node that the container fills. */
  lemma SetAtHome(m: Machine, policy: map<int, int>, cs: seq<Container>, k: nat, t: int, n: int)
    requires Periods(cs) && k < |cs| && t in cs[k].tasks && Only(cs, k, t) && SetOn(m, policy, cs, n, t)
    ensures Asks(policy, t) && Home(m, cs, k) == Some(n) && Chosen(m, policy, cs, k, t).Some?
  {
    MorePeriods(cs, k);
    WholeOnly(m.cpu2Numa, m.Size(), policy, cs, n, k, t);
    AskingMember(policy, cs[k].tasks, {NODE}, t);
    AskingMember(policy, cs[k].tasks, {CORES}, t);
    if t !in WholeNode(m, policy, cs, n) {
      var i: nat :| i < |NodeItems(m, policy, cs, n)| && ServedIn(n * m.Size(), m.Size(), NodeItems(m, policy, cs, n), i, t);
      ItemOnly(m.cpu2Numa, m.Size(), policy, cs, n, k, t, i);
    }
    hide FullNode;
    hide Asking;
    hide Items;
    hide MaskOf;
    hide NodeThreads;
  }

  /** The visit of that node gives the thread what is chosen for it. */
  lemma VisitSets(v: Tuning, m: Machine, policy: map<int, int>, cs: seq<Container>, k: nat, t: int, n: int)
    requires AllAccepted(m.accepts) && t in v.threads.affinity
    requires Periods(cs) && k < |cs| && t in cs[k].tasks && Only(cs, k, t) && Home(m, cs, k) == Some(n) && !Over(m, cs, n)
    requires Chosen(m, policy, cs, k, t).Some?
    ensures var w := Visit(v, m, policy, cs, n).threads.affinity;
            t in w && w[t] == Chosen(m, policy, cs, k, t).value
  {
    FilledBy(m, cs, k, n);
    MorePeriods(cs, k);
    var items, whole := NodeItems(m, policy, cs, n), WholeNode(m, policy, cs, n);
    var bound := BindCores(v, m.accepts, n * m.Size(), m.Size(), items);
    WholeOnly(m.cpu2Numa, m.Size(), policy, cs, n, k, t);
    AskingMember(policy, cs[k].tasks, {NODE}, t);
    BindCoresFollows(v, m.accepts, n * m.Size(), m.Size(), items);
    AllAttempted(bound, m.accepts, whole, m.MaskAt(n), t);
    if policy[t] == CORES {
      ItemHome(m, policy, cs, n, k, t);
      var i := |NodeItems(m, policy, cs[..k], n)|;
      forall j | i < j < |items| ensures t !in items[j].threads {
        if t in items[j].threads {
          ItemOnly(m.cpu2Numa, m.Size(), policy, cs, n, k, t, j);
        }
      }
      ThreadBound(v, m.accepts, n * m.Size(), m.Size(), items, i, t);
    }
    hide FullNode;
    hide Asking;
    hide NodeItems;
    hide WholeNode;
    hide MaskOf;
    hide BindCores;
    hide AttemptAll;
    hide Filled;
  }

  /** ... and no later node takes it away, unless over capacity. */
  lemma SetAndKept(v: Tuning, m: Machine, policy: map<int, int>, cs: seq<Container>, nodes: seq<int>, p: nat, k: nat, t: int)
    requires AllAccepted(m.accepts) && t in v.threads.affinity && InOrder(m, cs, nodes) && p < |nodes|
    requires Periods(cs) && k < |cs| && t in cs[k].tasks && Only(cs, k, t) && Home(m, cs, k) == Some(nodes[p])
    requires Chosen(m, policy, cs, k, t).Some? && forall i :: p <= i < |nodes| ==> !Over(m, cs, nodes[i])
    ensures var w := TuneNodes(v, m, policy, cs, nodes).threads.affinity;
            t in w && w[t] == Chosen(m, policy, cs, k, t).value
    decreases |nodes|
  {
    SetAndKeptTo(v, m, policy, cs, nodes, |nodes|, p, k, t);
    assert nodes[..|nodes|] == nodes;
  }

  lemma {:induction false} SetAndKeptTo(v: Tuning, m: Machine, policy: map<int, int>, cs: seq<Container>, nodes: seq<int>, e: nat, p: nat, k: nat, t: int)
    requires AllAccepted(m.accepts) && t in v.threads.affinity && InOrder(m, cs, nodes) && p < e <= |nodes|
    requires Periods(cs) && k < |cs| && t in cs[k].tasks && Only(cs, k, t) && Home(m, cs, k) == Some(nodes[p])
    requires Chosen(m, policy, cs, k, t).Some? && forall i :: p <= i < |nodes| ==> !Over(m, cs, nodes[i])
    ensures var w := TuneNodes(v, m, policy, cs, nodes[..e]).threads.affinity;
            t in w && w[t] == Chosen(m, policy, cs, k, t).value
    decreases e
  {
    hide Chosen;
    hide SetOn;
    hide Over;
    hide Filled;
    hide Home;
    assert Init(nodes[..e]) == nodes[..e - 1] && Last(nodes[..e]) == nodes[e - 1];
    var before := TuneNodes(v, m, policy, cs, nodes[..e - 1]);
    TuneNodesStep(v, m, policy, cs, nodes[..e]);
    if p == e - 1 {
      TuneNodesFollows(v, m, policy, cs, nodes[..e - 1]);
      VisitSets(before, m, policy, cs, k, t, nodes[p]);
    } else {
      SetAndKeptTo(v, m, policy, cs, nodes, e - 1, p, k, t);
      if SetOn(m, policy, cs, nodes[e - 1], t) {
        SetAtHome(m, policy, cs, k, t, nodes[e - 1]);
      }
      VisitSkips(before, m, policy, cs, nodes[e - 1], t);
    }
    hide TuneNodes;
    hide Visit;
  }

  lemma {:induction false} LoosenFollows(v: Tuning, m: Machine, policy: map<int, int>, cs: seq<Container>)
    ensures Follows(v.threads, Loosen(v, m, policy, cs).threads)
    decreases |cs|
  {
    if |cs| > 0 {
      LoosenFollows(v, m, policy, Init(cs));
      AttemptAllFollows(Loosen(v, m, policy, Init(cs)), m.accepts, Asking(policy, Last(cs).tasks, {NODE, CORES}), UpTo(m.cpuCoreNum));
      hide AttemptAll;
      hide RecordedAt;
    }
  }

  lemma {:induction false} LoosenSkips(v: Tuning, m: Machine, policy: map<int, int>, cs: seq<Container>, t: int)
    requires forall j :: 0 <= j < |cs| ==> t !in cs[j].tasks
    ensures Skipped(v.threads, Loosen(v, m, policy, cs).threads, t)
    decreases |cs|
  {
    if |cs| > 0 {
      LoosenSkips(v, m, policy, Init(cs), t);
      AskingMember(policy, Last(cs).tasks, {NODE, CORES}, t);
      AttemptAllSkips(Loosen(v, m, policy, Init(cs)), m.accepts, Asking(policy, Last(cs).tasks, {NODE, CORES}), UpTo(m.cpuCoreNum), t);
      hide AttemptAll;
      hide Asking;
    }
  }

  lemma LoosenOneSets(v: Tuning, m: Machine, policy: map<int, int>, c: Container, t: int)
    requires AllAccepted(m.accepts) && t in v.threads.affinity
    ensures var w := LoosenOne(v, m, policy, c).threads.affinity;
            && t in w
            && w[t] == if t in c.tasks && Asks(policy, t) && FullNode(m.cpu2Numa, m.Size(), c.cpus).None? then UpTo(m.cpuCoreNum)
                       else v.threads.affinity[t]
  {
    AskingMember(policy, c.tasks, {NODE, CORES}, t);
    AllAttempted(v, m.accepts, Asking(policy, c.tasks, {NODE, CORES}), UpTo(m.cpuCoreNum), t);
    hide AttemptAll;
    hide Asking;
    hide FullNode;
  }

  lemma {:induction false} LoosenSets(v: Tuning, m: Machine, policy: map<int, int>, cs: seq<Container>, k: nat, t: int)
    requires AllAccepted(m.accepts) && t in v.threads.affinity && k < |cs| && t in cs[k].tasks && Only(cs, k, t)
    ensures var w := Loosen(v, m, policy, cs).threads.affinity;
            t in w && w[t] == if Asks(policy, t) && Home(m, cs, k).None? then UpTo(m.cpuCoreNum) else v.threads.affinity[t]
    decreases |cs|
  {
    hide FullNode;
    hide Asks;
    hide LoosenOne;
    hide UpTo;
    var before := Loosen(v, m, policy, Init(cs));
    OnlyInit(cs, k, t);
    if k == |cs| - 1 {
      assert forall j :: 0 <= j < |Init(cs)| ==> t !in Init(cs)[j].tasks;
      LoosenSkips(v, m, policy, Init(cs), t);
    } else {
      assert Init(cs)[k] == cs[k];
      LoosenSets(v, m, policy, Init(cs), k, t);
    }
    LoosenOneSets(before, m, policy, Last(cs), t);
  }

  /**
   * The whole round for a thread of one container: its own affinity if some node over capacity is visited no earlier than it
   * is set, otherwise what is chosen for it, or no change when nothing is.
   */
  lemma RoundOutcome(v: Tuning, m: Machine, policy: map<int, int>, cs: seq<Container>, nodes: seq<int>, k: nat, t: int)
    requires AllAccepted(m.accepts) && RecordedAt(v.threads, t) && Periods(cs) && InOrder(m, cs, nodes)
    requires k < |cs| && t in cs[k].tasks && Only(cs, k, t)
    ensures var w := Round(v, m, policy, cs, nodes).threads.affinity;
            && t in w
            && w[t] == if Undone(m, policy, cs, k, t) then v.threads.original[t]
                       else if Chosen(m, policy, cs, k, t).Some? then Chosen(m, policy, cs, k, t).value
                       else v.threads.affinity[t]
  {
    var a := Loosen(v, m, policy, cs);
    LoosenFollows(v, m, policy, cs);
    LoosenSets(v, m, policy, cs, k, t);
    var b := a.(threads := Forget(a.threads, AllTasks(cs)));
    assert RecordedAt(b.threads, t) && b.threads.affinity == a.threads.affinity && b.threads.original == v.threads.original;
    hide Loosen;
    hide RecordedAt;
    hide SetOn;
    NodesOutcome(b, m, policy, cs, nodes, k, t);
    hide Undone;
    hide TuneNodes;
  }

  /** The same for the nodes alone. */
  lemma NodesOutcome(b: Tuning, m: Machine, policy: map<int, int>, cs: seq<Container>, nodes: seq<int>, k: nat, t: int)
    requires AllAccepted(m.accepts) && RecordedAt(b.threads, t) && Periods(cs) && InOrder(m, cs, nodes)
    requires k < |cs| && t in cs[k].tasks && Only(cs, k, t)
    ensures var w := TuneNodes(b, m, policy, cs, nodes).threads.affinity;
            && t in w
            && w[t] == if Undone(m, policy, cs, k, t) then b.threads.original[t]
                       else if Home(m, cs, k).Some? && Chosen(m, policy, cs, k, t).Some? then Chosen(m, policy, cs, k, t).value
                       else b.threads.affinity[t]
  {
    hide SetOn;
    hide Chosen;
    hide Home;
    hide TuneNodes;
    var atHome := Home(m, cs, k).Some? && Chosen(m, policy, cs, k, t).Some?;
    forall n | SetOn(m, policy, cs, n, t) ensures atHome && Home(m, cs, k) == Some(n) {
      SetAtHome(m, policy, cs, k, t, n);
    }
    if Undone(m, policy, cs, k, t) {
      var n :| Over(m, cs, n) && !(atHome && n < Home(m, cs, k).value);
      OverIsFilled(m, cs, n);
      var p :| 0 <= p < |nodes| && nodes[p] == n;
      OverCapacityReturns(b, m, policy, cs, nodes, p, t);
    } else if atHome {
      FilledBy(m, cs, k, Home(m, cs, k).value);
      var p :| 0 <= p < |nodes| && nodes[p] == Home(m, cs, k).value;
      SetAndKept(b, m, policy, cs, nodes, p, k, t);
    } else {
      TuneNodesSkips(b, m, policy, cs, nodes, t);
    }
  }

  /** With sensible quotas, a waiting thread of a node within capacity is given as many cores as its container may use CPUs. */
  lemma ChosenCores(m: Machine, policy: map<int, int>, cs: seq<Container>, k: nat, t: int, n: int)
    requires Periods(cs) && Sensible(cs) && k < |cs| && t in cs[k].tasks && Home(m, cs, k) == Some(n) && !Over(m, cs, n)
    requires t in policy && policy[t] == CORES
    ensures var c := Chosen(m, policy, cs, k, t);
            && c.Some? && |c.value| == Quota(cs[k])
            && forall x :: x in c.value ==> n * m.Size() <= x < (n + 1) * m.Size() && (x - n * m.Size()) % 2 == 0
  {
    MorePeriods(cs, k);
    ItemHome(m, policy, cs, n, k, t);
    BindingFits(m.cpu2Numa, m.Size(), policy, cs, n, n * m.Size());
    assert (n + 1) * m.Size() == n * m.Size() + m.Size();
    hide FullNode;
    hide Items;
    hide MaskOf;
    hide Quota;
    hide Total;
  }

  // ---------- What a round does to the others ----------

  lemma UnlistedNeverSet(m: Machine, policy: map<int, int>, cs: seq<Container>, n: int, t: int)
    requires Periods(cs) && t !in AllTasks(cs)
    ensures !SetOn(m, policy, cs, n, t)
  {
    WholeOnly(m.cpu2Numa, m.Size(), policy, cs, n, |cs|, t);
    forall i: nat | i < |NodeItems(m, policy, cs, n)| ensures t !in NodeItems(m, policy, cs, n)[i].threads {
      ItemNone(m.cpu2Numa, m.Size(), policy, cs, n, t, i);
    }
    hide Items;
    hide MaskOf;
    hide NodeThreads;
  }

  /** A round drops the record of a thread that no container lists and leaves its affinity as it is. */
  lemma RoundDropsUnlisted(v: Tuning, m: Machine, policy: map<int, int>, cs: seq<Container>, nodes: seq<int>, t: int)
    requires Periods(cs) && t in v.threads.affinity && t !in AllTasks(cs)
    ensures var w := Round(v, m, policy, cs, nodes).threads;
            t !in w.tuned && t in w.affinity && w.affinity[t] == v.threads.affinity[t]
  {
    var a := Loosen(v, m, policy, cs);
    LoosenSkips(v, m, policy, cs, t);
    var b := a.(threads := Forget(a.threads, AllTasks(cs)));
    forall i | 0 <= i < |nodes| ensures !SetOn(m, policy, cs, nodes[i], t) {
      UnlistedNeverSet(m, policy, cs, nodes[i], t);
    }
    hide Loosen;
    hide SetOn;
    TuneNodesSkips(b, m, policy, cs, nodes, t);
    hide TuneNodes;
  }

  /** A live thread that was changed and that no container lists any more is lost: giving back every record leaves it as set. */
  lemma UnlistedIsLost(v: Tuning, m: Machine, policy: map<int, int>, cs: seq<Container>, nodes: seq<int>, t: int)
    requires Periods(cs) && RecordedAt(v.threads, t) && t !in AllTasks(cs)
    requires t in v.threads.tuned && v.threads.affinity[t] != v.threads.tuned[t]
    ensures var w := Round(v, m, policy, cs, nodes).threads;
            && !RecordedAt(w, t) && w.original == v.threads.original
            && t in Restore(w).affinity && Restore(w).affinity[t] == v.threads.affinity[t] != w.original[t]
  {
    RoundDropsUnlisted(v, m, policy, cs, nodes, t);
    RoundFrame(v, m, policy, cs, nodes);
    hide Round;
  }

  lemma RoundFrame(v: Tuning, m: Machine, policy: map<int, int>, cs: seq<Container>, nodes: seq<int>)
    requires Periods(cs)
    ensures var w := Round(v, m, policy, cs, nodes).threads;
            && w.affinity.Keys == v.threads.affinity.Keys && w.original == v.threads.original
            && forall t :: RecordedAt(v.threads, t) && t in AllTasks(cs) ==> RecordedAt(w, t)
  {
    var a := Loosen(v, m, policy, cs);
    LoosenFollows(v, m, policy, cs);
    var b := a.(threads := Forget(a.threads, AllTasks(cs)));
    TuneNodesFollows(b, m, policy, cs, nodes);
    hide Loosen;
    hide TuneNodes;
    forall t | RecordedAt(a.threads, t) && t in AllTasks(cs) ensures RecordedAt(b.threads, t) {
    }
    hide RecordedAt;
  }

  /** A round with a node over capacity gives back every listed thread that no later node sets, whichever attempts succeed. */
  lemma OverCapacityRestores(v: Tuning, m: Machine, policy: map<int, int>, cs: seq<Container>, nodes: seq<int>, p: nat, t: int)
    requires RecordedAt(v.threads, t) && Periods(cs) && t in AllTasks(cs)
    requires p < |nodes| && Filled(m, cs, nodes[p]) && Over(m, cs, nodes[p]) && NeverSet(m, policy, cs, nodes, p + 1, t)
    ensures var w := Round(v, m, policy, cs, nodes).threads;
            t in w.affinity && w.affinity[t] == v.threads.original[t]
  {
    var a := Loosen(v, m, policy, cs);
    LoosenFollows(v, m, policy, cs);
    var b := a.(threads := Forget(a.threads, AllTasks(cs)));
    assert RecordedAt(b.threads, t);
    hide Loosen;
    hide NeverSet;
    hide Over;
    hide Filled;
    OverCapacityReturns(b, m, policy, cs, nodes, p, t);
    hide TuneNodes;
  }

  /** Every live thread whose record the round drops has its own affinity back already. */
  ghost predicate NoneDropped(s: Threads, cs: seq<Container>) {
    forall t :: t in s.affinity && t in s.tuned && t !in AllTasks(cs) ==> s.affinity[t] == s.tuned[t]
  }

  /** A round keeps every live thread restorable exactly when no changed live thread has left the containers. */
  lemma RoundExactly(v: Tuning, m: Machine, policy: map<int, int>, cs: seq<Container>, nodes: seq<int>)
    requires Recorded(v.threads) && Periods(cs)
    ensures Recorded(Round(v, m, policy, cs, nodes).threads) <==> NoneDropped(v.threads, cs)
  {
    var w := Round(v, m, policy, cs, nodes).threads;
    RoundFrame(v, m, policy, cs, nodes);
    forall t | t in v.threads.affinity
      ensures RecordedAt(w, t) <==> (t in v.threads.tuned && t !in AllTasks(cs) ==> v.threads.affinity[t] == v.threads.tuned[t])
    {
      if t !in AllTasks(cs) {
        RoundDropsUnlisted(v, m, policy, cs, nodes, t);
      }
      hide Round;
    }
    hide Round;
    hide RecordedAt;
  }

  // ---------- Runs ----------

  /** One step: a round, a thread ending or starting, or the plugin being disabled. */
  datatype Step =
    | Ran(policy: map<int, int>, cs: seq<Container>, nodes: seq<int>)
    | Exited(tid: int)
    | Started(tid: int, own: Mask)
    | Disabled

  ghost predicate Possible(v: Tuning, m: Machine, s: Step) {
    match s
    case Ran(policy, cs, nodes) => Periods(cs) && InOrder(m, cs, nodes)
    case Started(tid, own) => tid !in v.threads.affinity
    case _ => true
  }

  ghost function After(v: Tuning, m: Machine, s: Step): Tuning
    requires Possible(v, m, s)
  {
    match s
    case Ran(policy, cs, nodes) => Round(v, m, policy, cs, nodes)
    case Exited(tid) => v.(threads := v.threads.(affinity := v.threads.affinity - {tid}, original := v.threads.original - {tid}))
    case Started(tid, own) =>
      v.(threads := v.threads.(affinity := v.threads.affinity[tid := own], original := v.threads.original[tid := own]))
    case Disabled => v.(threads := Restore(v.threads))
  }

  /** No changed live thread has left the containers, and no thread number is used again while a different mask is on record for it. */
  ghost predicate Safe(v: Tuning, s: Step) {
    match s
    case Ran(policy, cs, nodes) => NoneDropped(v.threads, cs)
    case Started(tid, own) => tid in v.threads.tuned ==> v.threads.tuned[tid] == own
    case _ => true
  }

  lemma StepExactly(v: Tuning, m: Machine, s: Step)
    requires Recorded(v.threads) && Possible(v, m, s)
    ensures Recorded(After(v, m, s).threads) <==> Safe(v, s)
  {
    var w := After(v, m, s).threads;
    match s {
      case Ran(policy, cs, nodes) => RoundExactly(v, m, policy, cs, nodes);
      case Started(tid, own) =>
        assert RecordedAt(w, tid) <==> Safe(v, s);
        forall t | t in v.threads.affinity ensures RecordedAt(w, t) {
          assert RecordedAt(v.threads, t);
        }
      case Exited(tid) =>
        forall t | t in w.affinity ensures RecordedAt(w, t) {
          assert RecordedAt(v.threads, t);
        }
      case Disabled => RestoreReturnsAll(v.threads);
    }
    hide Round;
  }

  ghost predicate PossibleRun(v: Tuning, m: Machine, run: seq<Step>)
    decreases |run|
  {
    |run| > 0 ==> Possible(v, m, run[0]) && PossibleRun(After(v, m, run[0]), m, run[1..])
  }

  ghost function AfterRun(v: Tuning, m: Machine, run: seq<Step>): Tuning
    requires PossibleRun(v, m, run)
    decreases |run|
  {
    if |run| == 0 then v else AfterRun(After(v, m, run[0]), m, run[1..])
  }

  ghost predicate AlwaysRecorded(v: Tuning, m: Machine, run: seq<Step>)
    requires PossibleRun(v, m, run)
    decreases |run|
  {
    Recorded(v.threads) && (|run| > 0 ==> AlwaysRecorded(After(v, m, run[0]), m, run[1..]))
  }

  ghost predicate AlwaysSafe(v: Tuning, m: Machine, run: seq<Step>)
    requires PossibleRun(v, m, run)
    decreases |run|
  {
    |run| > 0 ==> Safe(v, run[0]) && AlwaysSafe(After(v, m, run[0]), m, run[1..])
  }

  /** Every live thread is restorable throughout a run exactly when every step is safe. */
  lemma {:induction false} RunExactly(v: Tuning, m: Machine, run: seq<Step>)
    requires Recorded(v.threads) && PossibleRun(v, m, run)
    ensures AlwaysRecorded(v, m, run) <==> AlwaysSafe(v, m, run)
    decreases |run|
  {
    hide Recorded;
    hide Safe;
    hide After;
    hide Possible;
    if |run| > 0 {
      StepExactly(v, m, run[0]);
      if Safe(v, run[0]) {
        RunExactly(After(v, m, run[0]), m, run[1..]);
      } else {
        assert !AlwaysRecorded(After(v, m, run[0]), m, run[1..]);
      }
    }
  }

  /** Disabling the plugin after a run of safe steps returns every live thread to the affinity it had before it was first changed. */
  lemma {:induction false} RunThenDisable(v: Tuning, m: Machine, run: seq<Step>)
    requires Recorded(v.threads) && PossibleRun(v, m, run) && AlwaysSafe(v, m, run)
    ensures var w := AfterRun(v, m, run);
            Recorded(w.threads) && After(w, m, Disabled).threads.affinity == w.threads.original && After(w, m, Disabled).threads.tuned == map[]
    decreases |run|
  {
    if |run| > 0 {
      StepExactly(v, m, run[0]);
      hide Recorded;
      hide Safe;
      hide After;
      hide Possible;
      RunThenDisable(After(v, m, run[0]), m, run[1..]);
    } else {
      RestoreReturnsAll(v.threads);
    }
  }

  /**
   * A thread exits between two rounds and another one with its own affinity starts under the same number, while the
   * record of the former is still there: disabling gives the new thread the affinity of the old one.
   */
  lemma ReusedNumberIsLost(v: Tuning, m: Machine, t: int, own: Mask)
    requires Recorded(v.threads) && t in v.threads.affinity && t in v.threads.tuned && v.threads.tuned[t] != own
    ensures var a := After(v, m, Exited(t));
            Possible(a, m, Started(t, own)) && !Safe(a, Started(t, own))
    ensures var w := After(After(v, m, Exited(t)), m, Started(t, own));
            var d := After(w, m, Disabled).threads;
            && !Recorded(w.threads) && w.threads.affinity[t] == w.threads.original[t] == own
            && t in d.affinity && d.affinity[t] == v.threads.original[t] != own
  {
    var w := After(After(v, m, Exited(t)), m, Started(t, own));
    assert RecordedAt(v.threads, t) && !RecordedAt(w.threads, t);
  }
}
