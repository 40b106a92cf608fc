/**
 * A round of binary_tune.cpp in terms of quotas, periods and CPU lists: which containers fill a node, how many whole CPUs
 * they may use, when a node has too many of them, and where each thread ends up.
 */
module BinaryMeaning {
  import opened Seqs
  import opened Topologies
  import opened BinaryCores
  import opened BinaryTune
  import opened BinaryRounds

  // ---------- Which containers fill a node ----------

  /** The node of a CPU; unlisted ones count as node 0. */
  function NodeOf(m: Machine, cpu: int): int {
    if cpu in m.cpu2Numa then m.cpu2Numa[cpu] else 0
  }

  /** The container has as many CPUs as a node, all of them on node n. */
  predicate Fills(m: Machine, c: Container, n: int) {
    m.numaNum > 0 && |c.cpus| > 0 && |c.cpus| == m.cpuCoreNum / m.numaNum && forall cpu :: cpu in c.cpus ==> NodeOf(m, cpu) == n
  }

  lemma FillsMeaning(m: Machine, c: Container, n: int)
    ensures FullNode(m.cpu2Numa, m.Size(), c.cpus) == Some(n) <==> Fills(m, c, n)
  {
    if |c.cpus| > 0 {
      assert c.cpus[0] in c.cpus;
    }
    assert forall cpu :: NumaOf(m.cpu2Numa, cpu) == NodeOf(m, cpu);
  }

  // ---------- Whole CPUs ----------

  /** w is the quota in whole periods, towards zero. */
  predicate Whole(c: Container, w: int) {
    if c.quotaUs >= 0 then w >= 0 && w * c.periodUs <= c.quotaUs < (w + 1) * c.periodUs
    else w <= 0 && (-w) * c.periodUs <= -c.quotaUs < (-w + 1) * c.periodUs
  }

  lemma WholeOnce(c: Container, v: int, w: int)
    requires c.periodUs > 0 && Whole(c, v) && Whole(c, w)
    ensures v == w
  {
    var p := c.periodUs;
    if c.quotaUs >= 0 {
      if v < w {
        MulLe(v + 1, w, p);
      } else if w < v {
        MulLe(w + 1, v, p);
      }
    } else if v < w {
      MulLe(-w + 1, -v, p);
    } else if w < v {
      MulLe(-v + 1, -w, p);
    }
  }

  lemma QuotaIsWhole(c: Container)
    requires c.periodUs > 0
    ensures Whole(c, Quota(c))
  {
    var q := if c.quotaUs >= 0 then c.quotaUs else -c.quotaUs;
    EuclidFact(q, c.periodUs);
    var d := q / c.periodUs;
    assert (d + 1) * c.periodUs == d * c.periodUs + c.periodUs;
    NotNegative(q, c.periodUs);
  }

  lemma NotNegative(q: nat, p: nat)
    requires p > 0
    ensures q / p >= 0
  {
  }

  /** The whole CPUs of every container. */
  ghost predicate AllWhole(cs: seq<Container>, w: seq<int>) {
    |w| == |cs| && forall i :: 0 <= i < |cs| ==> Whole(cs[i], w[i])
  }

  /** Summed up over the containers that fill node n. */
  ghost function WholeOn(m: Machine, cs: seq<Container>, w: seq<int>, n: int): int
    requires |w| == |cs|
  {
    if |cs| == 0 then 0 else WholeOn(m, Init(cs), Init(w), n) + (if Fills(m, Last(cs), n) then Last(w) else 0)
  }

  lemma {:induction false} TotalMeaning(m: Machine, cs: seq<Container>, w: seq<int>, n: int)
    requires Periods(cs) && AllWhole(cs, w)
    ensures Total(m.cpu2Numa, m.Size(), cs, n) == WholeOn(m, cs, w, n)
    decreases |cs|
  {
    if |cs| > 0 {
      assert Periods(Init(cs)) && AllWhole(Init(cs), Init(w));
      TotalMeaning(m, Init(cs), Init(w), n);
      FillsMeaning(m, Last(cs), n);
      QuotaIsWhole(Last(cs));
      WholeOnce(Last(cs), Quota(Last(cs)), Last(w));
      hide Whole;
      hide Quota;
      hide Fills;
      hide FullNode;
    }
  }

  /** The containers that fill the node may use more whole CPUs than half its CPUs. */
  ghost predicate Crowded(m: Machine, cs: seq<Container>, w: seq<int>, n: int)
    requires |w| == |cs|
  {
    m.numaNum > 0 && WholeOn(m, cs, w, n) > m.cpuCoreNum / m.numaNum / 2
  }

  lemma CrowdedIsOver(m: Machine, cs: seq<Container>, w: seq<int>, n: int)
    requires Periods(cs) && AllWhole(cs, w) && m.numaNum > 0
    ensures Over(m, cs, n) <==> Crowded(m, cs, w, n)
  {
    TotalMeaning(m, cs, w, n);
    hide Total;
    hide WholeOn;
  }

  // ---------- Where a thread ends up ----------

  /** One core for every whole CPU, all of them first hardware threads of node n. */
  ghost predicate ShareOf(m: Machine, mask: Mask, n: int, w: int)
    requires m.numaNum > 0
  {
    var size := m.cpuCoreNum / m.numaNum;
    |mask| == w && forall x :: x in mask ==> n * size <= x < (n + 1) * size && (x - n * size) % 2 == 0
  }

  lemma {:induction false} UpToMeaning(n: nat)
    ensures forall x :: x in UpTo(n) <==> 0 <= x < n
    decreases n
  {
    if n > 0 {
      UpToMeaning(n - 1);
    }
  }

  /** Some crowded node is visited no earlier than the one where the thread is bound, if it is. */
  ghost predicate TakenBack(m: Machine, policy: map<int, int>, cs: seq<Container>, w: seq<int>, k: nat, t: int)
    requires |w| == |cs| && k < |cs|
  {
    exists n :: Crowded(m, cs, w, n) && forall h :: t in policy && policy[t] in {1, 2} && Fills(m, cs[k], h) ==> h <= n
  }

  /**
   * A thread that one container lists ends a round in one of five ways: at its own affinity, if a crowded node is visited
   * no earlier than it is bound; as it was, if its executable asks for nothing; on every CPU, if its container fills no
   * node; on all cores of the node, or on as many cores of it as the container may use whole CPUs.
   */
  lemma RoundMeaning(v: Tuning, m: Machine, policy: map<int, int>, cs: seq<Container>, nodes: seq<int>, w: seq<int>, k: nat, t: int)
    requires AllAccepted(m.accepts) && RecordedAt(v.threads, t) && Periods(cs) && Sensible(cs) && InOrder(m, cs, nodes) && m.numaNum > 0
    requires AllWhole(cs, w) && k < |cs| && t in cs[k].tasks && Only(cs, k, t)
    ensures var r := Round(v, m, policy, cs, nodes).threads.affinity;
            && t in r
            && if TakenBack(m, policy, cs, w, k, t) then r[t] == v.threads.original[t]
               else if t !in policy || policy[t] !in {1, 2} then r[t] == v.threads.affinity[t]
               else if forall n :: !Fills(m, cs[k], n) then forall x :: x in r[t] <==> 0 <= x < m.cpuCoreNum
               else if policy[t] == 1 then forall n :: Fills(m, cs[k], n) ==> r[t] == if n in m.phyNumaMask then m.phyNumaMask[n] else {}
               else forall n :: Fills(m, cs[k], n) ==> ShareOf(m, r[t], n, w[k])
  {
    RoundOutcome(v, m, policy, cs, nodes, k, t);
    hide Round;
    TakenBackIs(m, policy, cs, w, k, t);
    forall n ensures Home(m, cs, k) == Some(n) <==> Fills(m, cs[k], n) {
      FillsMeaning(m, cs[k], n);
    }
    UpToMeaning(m.cpuCoreNum);
    hide UpTo;
    hide Fills;
    hide FullNode;
    if !Undone(m, policy, cs, k, t) && t in policy && policy[t] == 2 && Home(m, cs, k).Some? {
      ShareMeaning(m, policy, cs, w, k, t, Home(m, cs, k).value);
    }
    hide Undone;
    hide TakenBack;
    hide ShareOf;
    hide MaskOf;
    hide Home;
  }

  /** A waiting thread's share on a node that is not crowded. */
  lemma ShareMeaning(m: Machine, policy: map<int, int>, cs: seq<Container>, w: seq<int>, k: nat, t: int, n: int)
    requires Periods(cs) && Sensible(cs) && AllWhole(cs, w) && k < |cs| && t in cs[k].tasks && m.numaNum > 0
    requires Home(m, cs, k) == Some(n) && !Over(m, cs, n) && t in policy && policy[t] == 2
    ensures Chosen(m, policy, cs, k, t).Some? && ShareOf(m, Chosen(m, policy, cs, k, t).value, n, w[k])
  {
    ChosenCores(m, policy, cs, k, t, n);
    QuotaIsWhole(cs[k]);
    WholeOnce(cs[k], Quota(cs[k]), w[k]);
    hide Chosen;
    hide Whole;
    hide Quota;
    hide FullNode;
    hide Total;
  }

  lemma TakenBackIs(m: Machine, policy: map<int, int>, cs: seq<Container>, w: seq<int>, k: nat, t: int)
    requires Periods(cs) && Sensible(cs) && AllWhole(cs, w) && k < |cs| && t in cs[k].tasks && m.numaNum > 0
    ensures Undone(m, policy, cs, k, t) <==> TakenBack(m, policy, cs, w, k, t)
  {
    forall n ensures Over(m, cs, n) <==> Crowded(m, cs, w, n) {
      CrowdedIsOver(m, cs, w, n);
    }
    forall n ensures Home(m, cs, k) == Some(n) <==> Fills(m, cs[k], n) {
      FillsMeaning(m, cs[k], n);
    }
    hide Over;
    hide Crowded;
    hide Fills;
    if Home(m, cs, k).Some? && t in policy && policy[t] == 2 && !Over(m, cs, Home(m, cs, k).value) {
      ShareMeaning(m, policy, cs, w, k, t, Home(m, cs, k).value);
    }
    hide Home;
    hide MaskOf;
  }

  /** The bounds on a share, without the count of whole CPUs: an unlimited container gets no core. */
  lemma ShareBounds(m: Machine, policy: map<int, int>, cs: seq<Container>, k: nat, t: int, n: int)
    requires Periods(cs) && Sensible(cs) && k < |cs| && t in cs[k].tasks
    requires Home(m, cs, k) == Some(n) && !Over(m, cs, n) && t in policy && policy[t] == 2
    ensures Chosen(m, policy, cs, k, t).Some?
    ensures var mask, c := Chosen(m, policy, cs, k, t).value, cs[k];
            if c.quotaUs >= 0 then |mask| * c.periodUs <= c.quotaUs < (|mask| + 1) * c.periodUs else mask == {}
  {
    ChosenCores(m, policy, cs, k, t, n);
    QuotaIsWhole(cs[k]);
    hide Chosen;
    hide FullNode;
    hide Total;
    var c, w := cs[k], Quota(cs[k]);
    hide Quota;
    if c.quotaUs < 0 {
      WholeOnce(c, w, 0);
    }
  }

  /** Two waiting threads of different containers on a node share no core. */
  lemma SharesApart(m: Machine, policy: map<int, int>, cs: seq<Container>, j: nat, k: nat, t: int, u: int, n: int)
    requires Periods(cs) && j < k < |cs| && t in cs[j].tasks && u in cs[k].tasks
    requires t in policy && policy[t] == 2 && u in policy && policy[u] == 2 && Fills(m, cs[j], n) && Fills(m, cs[k], n)
    requires Chosen(m, policy, cs, j, t).Some? && Chosen(m, policy, cs, k, u).Some?
    ensures Chosen(m, policy, cs, j, t).value !! Chosen(m, policy, cs, k, u).value
  {
    FillsMeaning(m, cs[j], n);
    FillsMeaning(m, cs[k], n);
    MorePeriods(cs, j);
    MorePeriods(cs, k);
    ItemHome(m, policy, cs, n, j, t);
    ItemHome(m, policy, cs, n, k, u);
    AskingMember(policy, cs[j].tasks, {CORES}, t);
    assert cs[..k][j] == cs[j] && cs[..k][..j] == cs[..j];
    ItemOf(m.cpu2Numa, m.Size(), policy, cs[..k], n, j);
    hide Fills;
    hide FullNode;
    hide Asking;
    hide Items;
    MasksDisjoint(n * m.Size(), m.Size(), NodeItems(m, policy, cs, n), |NodeItems(m, policy, cs[..j], n)|, |NodeItems(m, policy, cs[..k], n)|);
    hide MaskOf;
  }
}
