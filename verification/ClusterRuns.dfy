/** Whole runs of the allocator: from start-up through any sequence of samples, bind, borrow and return rounds. */
module ClusterRuns {
  import opened Seqs
  import opened Sums
  import opened Topologies
  import opened Ceilings
  import opened ClusterSelection
  import opened ClusterSpec
  import opened ClusterInvariant
  import opened ClusterRounds
  import opened ClusterSteps
  import opened ClusterSound
  import opened ClusterLedger
  import opened ClusterReturns
  import opened ClusterBinding

  ghost predicate Good(t: Topology, s: State) {
    Sound(t, s) && Ledger(s.dockers)
  }

  lemma StartGood(t: Topology)
    requires t.Uniform()
    ensures Good(t, Start(t))
  {
    var s := Start(t);
    assert BoundIds(s) == {};
    forall c | t.IsCluster(c) ensures CoresSplit(t, s, c) {
      assert ClusterAt(s.clusters, c).occupied == [];
    }
    forall n | t.IsNode(n) ensures ClustersSplit(t, s, n) {
      assert NodeAt(s.nodes, n).occupied == [];
    }
    forall n, c | t.IsNode(n) && c in NodeAt(s.nodes, n).free ensures ClusterAt(s.clusters, c).occupied == [] {
      NodeOfCluster(t, n, c);
    }
  }

  datatype Step =
    | Observe(id: string, initial: real, cpus: seq<int>, mems: seq<int>, x: real)
    | Bind(sel: Selector, order: seq<string>, home: map<string, int>, failed: set<string>)
    | Borrow(sel: Selector, order: seq<string>, failed: set<string>)
    | Return(sel: Selector, order: seq<string>, order2: seq<string>)

  /**
   * What each step assumes: rounds visit every container once, no CPU is recorded as fully loaded,
   * everybody who lends or borrows is bound, and enough clusters are free.
   */
  ghost predicate Possible(t: Topology, s: State, step: Step) {
    t.Uniform() &&
    match step
    case Observe(_, _, _, _, _) => true
    case Bind(sel, order, home, failed) =>
      sel.Calm() && forall id :: id in order ==> id in s.dockers && id in home && t.IsNode(home[id])
    case Borrow(sel, order, failed) =>
      sel.Calm() && Lists(order, s.dockers) && Participants(s) && BorrowFits(t, s, order)
    case Return(sel, order, order2) =>
      sel.Calm() && Lists(order, s.dockers) && Lists(order2, s.dockers) && ReturnFits(t, s, order)
  }

  /** No command fails that matters: a lender's update, or a bind of a container that is not on its node with the selected cores already. */
  ghost predicate Harmless(t: Topology, s: State, step: Step)
    requires Possible(t, s, step)
  {
    match step
    case Bind(sel, order, home, failed) => FailuresHarmless(t, sel, s, order, home, failed)
    case Borrow(sel, order, failed) => PlanOf(s, order).Quiet() || forall id :: id in PlanOf(s, order).lenders ==> id !in failed
    case _ => true
  }

  ghost predicate Admissible(t: Topology, s: State, step: Step) {
    Possible(t, s, step) && Harmless(t, s, step)
  }

  ghost function Next(t: Topology, s: State, step: Step): State
    requires Possible(t, s, step)
  {
    match step
    case Observe(id, initial, cpus, mems, x) => Sample(s, id, initial, cpus, mems, x)
    case Bind(sel, order, home, failed) => BindAll(t, sel, s, order, home, failed).state
    case Borrow(sel, order, failed) => BorrowRound(t, sel, s, order, failed)
    case Return(sel, order, order2) => ReturnRound(t, sel, s, order, order2)
  }

  // ---------- Samples and arrivals ----------

  lemma SampleSound(t: Topology, s: State, id: string, initial: real, cpus: seq<int>, mems: seq<int>, x: real)
    requires Sound(t, s)
    ensures Sound(t, Sample(s, id, initial, cpus, mems, x))
  {
    var r := Sample(s, id, initial, cpus, mems, x);
    if id in s.dockers {
      hide Sound;
      BookKeeps(t, s, r);
    } else {
      var P := BoundIds(s);
      assert BoundIds(r) == P;
      ArrivalKeeps(t, s, r, P, id);
      hide Partitioned;
      assert forall i :: i in P ==> r.dockers[i] == s.dockers[i] && Sized(s.dockers[i]);
    }
  }

  lemma ArrivalKeeps(t: Topology, s: State, r: State, P: set<string>, id: string)
    requires Partitioned(t, s, P) && id !in s.dockers
    requires r.clusters == s.clusters && r.nodes == s.nodes && id in r.dockers
    requires r.dockers == s.dockers[id := r.dockers[id]] && r.dockers[id].bind == []
    ensures Partitioned(t, r, P)
  {
    assert CoresOk(t, r) && NodesOk(t, r) by {
      assert forall k :: t.IsCluster(k) && CoresSplit(t, s, k) ==> CoresSplit(t, r, k);
      assert forall k :: t.IsNode(k) && ClustersSplit(t, s, k) ==> ClustersSplit(t, r, k);
    }
    forall i | i in P ensures Placed(t, r, r.dockers[i]) {
      assert Placed(t, s, s.dockers[i]);
    }
    assert forall i, k :: Holds(r, i, k) <==> Holds(s, i, k);
    OwnedSame(t, s, r, P);
  }

  /** Fields that the ledger reads. */
  ghost predicate SameAccount(d: Docker, e: Docker) {
    && e.lended == d.lended && e.borrow == d.borrow && e.initial == d.initial && e.lend == d.lend && e.current == d.current
    && (d.bound ==> e.bound) && (e.bound ==> d.bound || d.initial > 0.0)
  }

  /** The ledger survives anything that leaves the accounts alone. */
  lemma SameAccountsLedger(a: map<string, Docker>, b: map<string, Docker>)
    requires Ledger(a) && a.Keys == b.Keys && forall i :: i in a ==> SameAccount(a[i], b[i])
    ensures Ledger(b)
  {
    forall i | i in b ensures Balanced(b.Keys, b[i]) && NamesLenders(b, b[i]) && Proper(b[i]) {
      assert SameAccount(a[i], b[i]);
      SameAccountEntry(a, b, i);
    }
    forall i | i in b && b[i].lended ensures FullyLent(b, i) {
      assert SameAccount(a[i], b[i]);
      assert FullyLent(a, i);
      forall p | p in a ensures LoansFrom(a, i)(p) == LoansFrom(b, i)(p) {
        assert SameAccount(a[p], b[p]);
      }
      SumSame(a.Keys, LoansFrom(a, i), LoansFrom(b, i));
    }
  }

  lemma SameAccountEntry(a: map<string, Docker>, b: map<string, Docker>, i: string)
    requires Ledger(a) && a.Keys == b.Keys && i in a && forall i :: i in a ==> SameAccount(a[i], b[i])
    ensures Balanced(b.Keys, b[i]) && NamesLenders(b, b[i]) && Proper(b[i])
  {
    assert Balanced(a.Keys, a[i]) && NamesLenders(a, a[i]) && Proper(a[i]);
    hide Ledger;
    assert SameAccount(a[i], b[i]);
    SumSame(a.Keys, SharesOf(a[i]), SharesOf(b[i]));
    forall id | id in b[i].borrow ensures id in b && b[id].lended {
      assert SameAccount(a[id], b[id]);
    }
  }

  /** A container that arrives owes nothing and is owed nothing. */
  lemma ArrivalLedger(a: map<string, Docker>, id: string, d: Docker)
    requires Ledger(a) && id !in a
    requires !d.lended && !d.bound && d.borrow == map[] && d.current == d.initial
    ensures Ledger(a[id := d])
  {
    var b, K := a[id := d], a.Keys;
    assert b.Keys == K + {id};
    forall i | i in b ensures Balanced(b.Keys, b[i]) && NamesLenders(b, b[i]) && Proper(b[i]) {
      ArrivalEntry(a, id, d, i);
    }
    forall i | i in b && b[i].lended ensures FullyLent(b, i) {
      assert FullyLent(a, i);
      SumAdd(K, LoansFrom(b, i), id);
      SumSame(K, LoansFrom(a, i), LoansFrom(b, i));
    }
  }

  lemma ArrivalEntry(a: map<string, Docker>, id: string, d: Docker, i: string)
    requires Ledger(a) && id !in a && i in a[id := d]
    requires !d.lended && !d.bound && d.borrow == map[] && d.current == d.initial
    ensures var b := a[id := d]; Balanced(b.Keys, b[i]) && NamesLenders(b, b[i]) && Proper(b[i])
  {
    var b, K := a[id := d], a.Keys;
    assert b.Keys == K + {id};
    if i == id {
      SumRestrict(b.Keys, {}, SharesOf(d));
    } else {
      assert Balanced(K, a[i]) && NamesLenders(a, a[i]) && Proper(a[i]);
      hide Ledger;
      SumAdd(K, SharesOf(b[i]), id);
    }
  }

  lemma SampleLedger(s: State, id: string, initial: real, cpus: seq<int>, mems: seq<int>, x: real)
    requires Ledger(s.dockers)
    ensures Ledger(Sample(s, id, initial, cpus, mems, x).dockers)
  {
    var r := Sample(s, id, initial, cpus, mems, x);
    if id in s.dockers {
      SameAccountsLedger(s.dockers, r.dockers);
    } else {
      ArrivalLedger(s.dockers, id, r.dockers[id]);
    }
  }

  // ---------- Bind rounds ----------

  /** Containers that are not bound are still at their initial limit. */
  lemma UnboundAtInitial(dockers: map<string, Docker>, i: string)
    requires Ledger(dockers) && i in dockers && !dockers[i].bound
    ensures dockers[i].current == dockers[i].initial
  {
    assert Balanced(dockers.Keys, dockers[i]) && Proper(dockers[i]);
    SumRestrict(dockers.Keys, {}, SharesOf(dockers[i]));
  }

  lemma BindPossible(t: Topology, sel: Selector, s: State, order: seq<string>, home: map<string, int>, failed: set<string>)
    requires Good(t, s) && Possible(t, s, Bind(sel, order, home, failed))
    ensures CanBindAll(t, sel, s, order, home)
  {
    forall i | i in s.dockers && !s.dockers[i].bound ensures s.dockers[i].current == s.dockers[i].initial {
      UnboundAtInitial(s.dockers, i);
    }
    hide Sound;
    hide Ledger;
  }

  lemma OutcomeAccounts(s: State, g: State, r: State, failed: set<string>)
    requires Outcome(s, g, r, failed) && forall i :: i in s.dockers ==> BoundMore(s.dockers[i], g.dockers[i])
    ensures forall i :: i in s.dockers ==> SameAccount(s.dockers[i], r.dockers[i])
  {
    forall i | i in s.dockers ensures SameAccount(s.dockers[i], r.dockers[i]) {
      assert r.dockers[i] == Resulting(s.dockers[i], g.dockers[i], i in failed);
      BoundMoreAccount(s.dockers[i], g.dockers[i]);
    }
  }

  /** A bind round leaves every account alone, whatever its commands come to. */
  lemma BindLedger(t: Topology, sel: Selector, s: State, order: seq<string>, home: map<string, int>, failed: set<string>)
    requires CanBindAll(t, sel, s, order, home) && Ledger(s.dockers)
    ensures t.Uniform() && Ledger(BindAll(t, sel, s, order, home, failed).state.dockers)
  {
    StartSound(t, sel, s, order, home);
    RoundOutcome(t, sel, s, order, home, failed);
    BindAllKeeps(t, sel, s, order, home);
    var g, r := BindAll(t, sel, s, order, home, {}).state, BindAll(t, sel, s, order, home, failed).state;
    hide BindAll;
    hide Sound;
    hide Ledger;
    hide BoundMore;
    OutcomeAccounts(s, g, r, failed);
    hide SameAccount;
    SameAccountsLedger(s.dockers, r.dockers);
  }

  lemma BindGoodExactly(t: Topology, sel: Selector, s: State, order: seq<string>, home: map<string, int>, failed: set<string>)
    requires Good(t, s) && Possible(t, s, Bind(sel, order, home, failed))
    ensures Good(t, BindAll(t, sel, s, order, home, failed).state) <==> Harmless(t, s, Bind(sel, order, home, failed))
  {
    hide Sound;
    hide Ledger;
    hide BindAll;
    hide FailuresHarmless;
    BindPossible(t, sel, s, order, home, failed);
    hide CanBindAll;
    BindRoundExactly(t, sel, s, order, home, failed);
    BindLedger(t, sel, s, order, home, failed);
  }

  lemma BoundMoreAccount(d: Docker, e: Docker)
    requires BoundMore(d, e)
    ensures SameAccount(d, e)
  {
    BookFields(d.(bound := false), e.(bound := false));
  }

  // ---------- Runs ----------

  /** A step keeps the partition, the cpuset sizes and the ledger exactly when no command fails that matters. */
  lemma NextGoodExactly(t: Topology, s: State, step: Step)
    requires Good(t, s) && Possible(t, s, step)
    ensures Good(t, Next(t, s, step)) <==> Harmless(t, s, step)
  {
    hide Sound;
    hide Ledger;
    match step
    case Observe(id, initial, cpus, mems, x) =>
      SampleSound(t, s, id, initial, cpus, mems, x);
      SampleLedger(s, id, initial, cpus, mems, x);
    case Bind(sel, order, home, failed) =>
      BindGoodExactly(t, sel, s, order, home, failed);
    case Borrow(sel, order, failed) =>
      BorrowRoundBooks(t, sel, s, order, failed);
      BorrowRoundLedger(t, sel, s, order, failed);
    case Return(sel, order, order2) =>
      ReturnRoundBooks(t, sel, s, order, order2);
      ReturnRoundLedger(t, sel, s, order, order2);
  }

  ghost predicate AdmissibleRun(t: Topology, s: State, steps: seq<Step>)
    decreases |steps|
  {
    |steps| > 0 ==> Admissible(t, s, steps[0]) && AdmissibleRun(t, Next(t, s, steps[0]), steps[1..])
  }

  ghost function Run(t: Topology, s: State, steps: seq<Step>): State
    requires AdmissibleRun(t, s, steps)
    decreases |steps|
  {
    if |steps| == 0 then s else Run(t, Next(t, s, steps[0]), steps[1..])
  }

  lemma {:induction false} RunGood(t: Topology, s: State, steps: seq<Step>)
    requires Good(t, s) && AdmissibleRun(t, s, steps)
    ensures Good(t, Run(t, s, steps))
    decreases |steps|
  {
    if |steps| > 0 {
      NextGoodExactly(t, s, steps[0]);
      RunGood(t, Next(t, s, steps[0]), steps[1..]);
    }
  }

  /**
   * In every state reached from start-up: bound containers hold ceil(limit) distinct CPUs, no CPU has two
   * holders, limits only move between containers, and without outstanding loans everyone is at the initial limit.
   */
  lemma ReachableStates(t: Topology, steps: seq<Step>)
    requires t.Uniform() && AdmissibleRun(t, Start(t), steps)
    ensures var s := Run(t, Start(t), steps);
            var D := s.dockers;
            && (forall i :: i in BoundIds(s) ==> |D[i].cpuSet| == Ceil(D[i].current) > 0 && NoDup(D[i].cpuSet))
            && (forall i, j, x :: i in BoundIds(s) && j in BoundIds(s) && x in D[i].cpuSet && x in D[j].cpuSet ==> i == j)
            && Sum(D.Keys, Currents(D)) == Sum(D.Keys, Initials(D))
            && ((forall j :: j in D ==> !D[j].lended) ==> forall i :: i in D ==> D[i].current == D[i].initial)
  {
    StartGood(t);
    RunGood(t, Start(t), steps);
    hide Run;
    hide Sound;
    hide Ledger;
    var s := Run(t, Start(t), steps);
    var D := s.dockers;
    forall i | i in BoundIds(s) ensures |D[i].cpuSet| == Ceil(D[i].current) > 0 && NoDup(D[i].cpuSet) {
      CpuSetSize(t, s, i);
      LimitFloor(D, i);
    }
    forall i, j, x | i in BoundIds(s) && j in BoundIds(s) && x in D[i].cpuSet && x in D[j].cpuSet ensures i == j {
      if i != j {
        CpuSetsDisjoint(t, s, i, j, x);
      }
    }
    TotalConserved(D);
    if forall j :: j in D ==> !D[j].lended {
      forall i | i in D ensures D[i].current == D[i].initial {
        AllReturned(D, i);
      }
    }
  }

  // ---------- A bind command that fails ----------

  /** A machine of one node with three clusters of two cores, and a container of limit 2 that runs on all six CPUs. */
  const SIX_CPUS: Topology := Topology(1, 3, 2, false)

  ghost function Arrived(id: string, x: real): State {
    Sample(Start(SIX_CPUS), id, 2.0, [0, 1, 2, 3, 4, 5], [0], x)
  }

  /** The container's entry after its turn: it has a cluster and is marked as bound, but keeps its CPUs. */
  lemma ArrivedTurn(sel: Selector, id: string, x: real)
    requires sel.Calm()
    ensures SIX_CPUS.Uniform()
    ensures var s := Arrived(id, x);
            var b := BindTurn(SIX_CPUS, sel, s, id, 0, false);
            && !b.stopped && b.state.dockers[id].bound && b.state.dockers[id].cpuSet == [0, 1, 2, 3, 4, 5]
            && b.state.dockers[id].current == 2.0 && |b.state.dockers[id].bind| == 1
  {
    var t, s := SIX_CPUS, Arrived(id, x);
    assert t.Cores() == 2 && t.Uniform() && ClustersFor(t, 2.0) == 1;
    var free := t.ClusterIds(0);
    assert s.nodes[0] == Node(free, []) && |free| == 3;
    ClusterIdsFacts(t, 0);
    PickClustersFree(t, sel, 0, [], free, 1);
    BindTurnWritten(t, sel, s, id, 0, 1, PickClusters(t, sel, 0, [], 1), false);
    hide BindTurn;
    hide PickClusters;
  }

  lemma ArrivedGood(id: string, x: real)
    ensures Good(SIX_CPUS, Arrived(id, x)) && id in Arrived(id, x).dockers
  {
    var t := SIX_CPUS;
    StartGood(t);
    SampleSound(t, Start(t), id, 2.0, [0, 1, 2, 3, 4, 5], [0], x);
    SampleLedger(Start(t), id, 2.0, [0, 1, 2, 3, 4, 5], [0], x);
    hide Sound;
    hide Ledger;
    hide Start;
  }

  lemma {:induction false} OnlyTurn(t: Topology, sel: Selector, s: State, order: seq<string>, home: map<string, int>, failed: set<string>)
    requires t.Uniform() && |order| == 1 && forall id :: id in order ==> id in s.dockers && id in home
    ensures var id := order[0];
            BindAll(t, sel, s, order, home, failed).state == BindTurn(t, sel, s, id, home[id], id !in failed).state
  {
    hide BindTurn;
    var none := Init(order);
    assert BindAll(t, sel, s, none, home, failed) == BindResult(s, false);
  }

  lemma WrongSize(t: Topology, r: State, id: string)
    requires id in BoundIds(r) && |r.dockers[id].cpuSet| != Ceil(r.dockers[id].current)
    ensures !Good(t, r)
  {
    assert !Sized(r.dockers[id]);
    hide Partitioned;
    hide Ledger;
  }

  /**
   * A bind round in which the container's command fails, although everything that a round assumes holds: the container
   * is marked as bound with six CPUs for a limit of 2, and the sizes and the partition are lost.
   */
  lemma FailedBindKeepsCpus(sel: Selector, id: string, x: real)
    requires sel.Calm()
    ensures var s, step := Arrived(id, x), Bind(sel, [id], map[id := 0], {id});
            && Good(SIX_CPUS, s) && Possible(SIX_CPUS, s, step) && !Harmless(SIX_CPUS, s, step)
            && var r := Next(SIX_CPUS, s, step);
            && r.dockers[id].bound && |r.dockers[id].cpuSet| == 6 && r.dockers[id].current == 2.0 && |r.dockers[id].bind| == 1
            && !Good(SIX_CPUS, r)
  {
    hide Arrived;
    hide BindTurn;
    hide BindAll;
    hide Good;
    hide Harmless;
    var t, s, step := SIX_CPUS, Arrived(id, x), Bind(sel, [id], map[id := 0], {id});
    ArrivedGood(id, x);
    ArrivedTurn(sel, id, x);
    OnlyTurn(t, sel, s, step.order, step.home, step.failed);
    WrongSize(t, Next(t, s, step), id);
    NextGoodExactly(t, s, step);
  }
}
