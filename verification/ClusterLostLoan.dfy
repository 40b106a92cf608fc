/** A borrow round in which the lender's update command fails: the smallest case. */
module ClusterLostLoan {
  import opened Seqs
  import opened Sums
  import opened Topologies
  import opened Ceilings
  import opened ClusterSelection
  import opened ClusterSpec
  import opened ClusterInvariant
  import opened ClusterRounds
  import opened ClusterSteps
  import opened ClusterSound
  import opened ClusterLedger
  import opened ClusterTurns

  /** One node of three clusters of two cores. */
  const MACHINE: Topology := Topology(1, 3, 2, false)

  /** An idle container on the first cluster, and a busy one on the second. */
  function Idle(): Docker {
    Docker(true, false, seq(30, i => 0.0), 0.0, [0, 1], [0], [0], map[], 2.0, 0.0, 2.0)
  }

  function Busy(): Docker {
    Docker(true, false, [200.0], 200.0, [2, 3], [0], [1], map[], 2.0, 0.0, 2.0)
  }

  function Tables(): map<int, Cluster> {
    map[0 := Cluster([], [], [0, 1]), 1 := Cluster([], [], [2, 3]), 2 := Cluster([], [4, 5], [])]
  }

  /** Containers a and b, in the order they are visited. */
  function Order(a: string, b: string): seq<string> {
    [a, b]
  }

  /** Containers a and b are the idle and the busy one. */
  function Two(a: string, b: string): (s: State)
    ensures a in s.dockers && b in s.dockers && s.dockers.Keys == {a, b} && forall id :: id in Order(a, b) ==> id in s.dockers
  {
    State(map[b := Busy()][a := Idle()], Tables(), map[0 := Node([2], [0, 1])])
  }

  lemma TwoPlaced(a: string, b: string)
    requires a != b
    ensures Placed(MACHINE, Two(a, b), Idle()) && Placed(MACHINE, Two(a, b), Busy())
  {
    var s := Two(a, b);
    assert OccBag(s.clusters, []) == multiset{};
    assert Init([0]) == [] && Init([1]) == [];
    assert OccBag(s.clusters, [0]) == multiset([0, 1]) && OccBag(s.clusters, [1]) == multiset([2, 3]);
  }

  lemma TwoTables(a: string, b: string)
    requires a != b
    ensures CoresOk(MACHINE, Two(a, b)) && NodesOk(MACHINE, Two(a, b))
  {
    var s := Two(a, b);
    assert MACHINE.PhysCores(0) == [0, 1] && MACHINE.PhysCores(1) == [2, 3] && MACHINE.PhysCores(2) == [4, 5];
    assert MACHINE.ClusterIds(0) == [0, 1, 2];
    forall c | MACHINE.IsCluster(c) ensures CoresSplit(MACHINE, s, c) {
      assert c == 0 || c == 1 || c == 2;
    }
    assert multiset([2]) + multiset([0, 1]) == multiset([0, 1, 2]);
    forall n | MACHINE.IsNode(n) ensures ClustersSplit(MACHINE, s, n) {
      assert n == 0;
    }
  }

  lemma TwoOwners(a: string, b: string)
    requires a != b
    ensures Owned(MACHINE, Two(a, b), {a, b})
  {
    var s, P := Two(a, b), {a, b};
    forall i, j, c | Holds(s, i, c) && Holds(s, j, c) ensures i == j {
    }
    assert Holds(s, a, 0) && Holds(s, b, 1);
    forall n, c | MACHINE.IsNode(n) && c in NodeAt(s.nodes, n).occupied ensures exists i :: i in P && Holds(s, i, c) {
      assert c == 0 || c == 1;
    }
  }

  lemma TwoBound(a: string, b: string)
    requires a != b
    ensures BoundIds(Two(a, b)) == {a, b} && AllPlaced(MACHINE, Two(a, b), {a, b})
    ensures forall i :: i in {a, b} ==> Sized(Two(a, b).dockers[i])
  {
    TwoPlaced(a, b);
    hide Placed;
    assert Ceil(2.0) == 2;
  }

  lemma SoundFromParts(s: State, P: set<string>)
    requires CoresOk(MACHINE, s) && NodesOk(MACHINE, s) && FreeUnused(MACHINE, s) && AllPlaced(MACHINE, s, P) && Owned(MACHINE, s, P)
    requires BoundIds(s) == P && forall i :: i in P ==> Sized(s.dockers[i])
    ensures Sound(MACHINE, s)
  {
    hide CoresOk;
    hide NodesOk;
    hide FreeUnused;
    hide Owned;
    hide Sized;
  }

  lemma NotRecalled(r: State, a: string)
    requires a in r.dockers && !r.dockers[a].lended
    ensures forall order :: (forall id :: id in order ==> id in r.dockers) ==> a !in Recallers(r, order)
  {
  }

  lemma TwoSound(a: string, b: string)
    requires a != b
    ensures Sound(MACHINE, Two(a, b)) && BoundIds(Two(a, b)) == {a, b}
  {
    TwoBound(a, b);
    TwoTables(a, b);
    TwoOwners(a, b);
    assert FreeUnused(MACHINE, Two(a, b));
    SoundFromParts(Two(a, b), {a, b});
    hide Sound;
    hide Two;
    hide BoundIds;
    hide AllPlaced;
    hide CoresOk;
    hide NodesOk;
    hide Owned;
    hide FreeUnused;
    hide Sized;
  }

  lemma NoLoans(K: set<string>, d: Docker)
    requires d.borrow == map[]
    ensures Borrowed(K, d) == 0.0
  {
    SumRestrict(K, {}, SharesOf(d));
  }

  lemma TwoLedger(a: string, b: string)
    requires a != b
    ensures Ledger(Two(a, b).dockers)
  {
    var D := Two(a, b).dockers;
    NoLoans(D.Keys, Idle());
    NoLoans(D.Keys, Busy());
    hide Borrowed;
    forall i | i in D ensures Balanced(D.Keys, D[i]) && NamesLenders(D, D[i]) && Proper(D[i]) && !D[i].lended {
      assert D[i] == Idle() || D[i] == Busy();
    }
    hide Balanced;
    hide NamesLenders;
    hide Proper;
    hide FullyLent;
  }

  lemma TwoPlan(a: string, b: string)
    requires a != b
    ensures Lists(Order(a, b), Two(a, b).dockers) && Participants(Two(a, b))
    ensures var p := PlanOf(Two(a, b), Order(a, b));
            p.lenders == [a] && p.borrowers == [b] && p.total == 1.0 && p.offered.dockers[a].lend == 1.0
            && p.offered.dockers[b] == Busy()
  {
    var s, order := Two(a, b), Order(a, b);
    assert CanLend(Idle()) && !CanLend(Busy()) && NeedsMore(Busy());
    assert Init(order) == [a] && Last(order) == b && Init([a]) == [] && Last([a]) == a;
    assert Lenders(s, [a]) == [a];
    assert Lenders(s, order) == [a];
    var o := Offered(s, [a]);
    assert Borrowers(o, [], [a]) == [];
    assert Borrowers(o, [a], [a]) == [];
    assert Borrowers(o, order, [a]) == [b];
    assert TotalOffer(o, []) == 0.0;
  }

  /** The busy container needs one new cluster, and one is free. */
  lemma TwoFits(a: string, b: string)
    requires a != b
    ensures BorrowFits(MACHINE, Two(a, b), Order(a, b))
  {
    TwoPlan(a, b);
    var p := PlanOf(Two(a, b), Order(a, b));
    assert p.offered.nodes == Two(a, b).nodes && p.offered.clusters == Two(a, b).clusters;
    hide PlanOf;
    OneNewCluster(p.offered, a, b);
    assert p.Limit() == 1.0;
    hide Two;
  }

  lemma OneNewCluster(o: State, a: string, b: string)
    requires a != b && o.nodes == Two(a, b).nodes && o.clusters == Two(a, b).clusters && b in o.dockers && o.dockers[b] == Busy()
    ensures MACHINE.Uniform() && Fits(MACHINE, o, [b], Always(1.0))
  {
    assert Init([b]) == [] && Last([b]) == b;
    assert Ceil(3.0) == 3 && Ceil(2.0) == 2;
    assert NewClusters(MACHINE, o, b, 1.0) <= 1;
    hide NewClusters;
    forall n | MACHINE.IsNode(n) ensures Demand(MACHINE, o, [b], Always(1.0), n) <= |NodeAt(o.nodes, n).free| {
      assert n == 0;
      assert Demand(MACHINE, o, [], Always(1.0), n) == 0;
    }
  }

  lemma TwoReady(sel: Selector, a: string, b: string)
    requires sel.Calm() && a != b
    ensures MACHINE.Uniform() && CanBorrowRound(MACHINE, sel, Two(a, b), Order(a, b))
  {
    TwoSound(a, b);
    TwoLedger(a, b);
    TwoPlan(a, b);
    TwoFits(a, b);
    hide Sound;
    hide Ledger;
    hide BorrowFits;
    hide Lists;
    hide Participants;
    hide PlanOf;
  }

  /** The accounts after a round in which the lender's command fails. */
  lemma BrokenBooks(r: State, a: string, b: string)
    requires a != b && r.dockers.Keys == Two(a, b).dockers.Keys
    requires forall i :: i in Two(a, b).dockers ==> Book(r.dockers[i]) == BorrowBook(PlanOf(Two(a, b), Order(a, b)), {a}, i)
    ensures r.dockers[a].current == 1.0 && !r.dockers[a].lended
    ensures r.dockers[b].current == 3.0 && r.dockers[b].borrow == map[a := 1.0]
  {
    TwoPlan(a, b);
    var p := PlanOf(Two(a, b), Order(a, b));
    var d, e := p.offered.dockers[a], p.offered.dockers[b];
    assert d == Idle().(lend := 1.0);
    hide PlanOf;
    assert p.Limit() == 1.0;
    var shares := Shares(p.offered, p.lenders, 1);
    assert shares == map[a := 1.0];
    BookFields(r.dockers[a], d.(current := 1.0));
    BookFields(r.dockers[b], e.(current := 3.0, borrow := e.borrow + shares));
    assert Book(r.dockers[a]) == BorrowBook(p, {a}, a) && Book(r.dockers[b]) == BorrowBook(p, {a}, b);
  }

  lemma RoundBooks(sel: Selector, a: string, b: string)
    requires sel.Calm() && a != b && MACHINE.Uniform() && CanBorrowRound(MACHINE, sel, Two(a, b), Order(a, b))
    ensures var r := BorrowRound(MACHINE, sel, Two(a, b), Order(a, b), {a});
            && r.dockers.Keys == Two(a, b).dockers.Keys
            && forall i :: i in Two(a, b).dockers ==> Book(r.dockers[i]) == BorrowBook(PlanOf(Two(a, b), Order(a, b)), {a}, i)
  {
    hide Two;
    hide Order;
    hide PlanOf;
    hide Sound;
    hide Ledger;
    hide BorrowRound;
    hide BorrowBook;
    BorrowRoundBooks(MACHINE, sel, Two(a, b), Order(a, b), {a});
  }

  lemma RoundLedger(sel: Selector, a: string, b: string)
    requires sel.Calm() && a != b && MACHINE.Uniform() && CanBorrowRound(MACHINE, sel, Two(a, b), Order(a, b))
    ensures !Ledger(BorrowRound(MACHINE, sel, Two(a, b), Order(a, b), {a}).dockers)
  {
    TwoPlan(a, b);
    assert a in PlanOf(Two(a, b), Order(a, b)).lenders && !PlanOf(Two(a, b), Order(a, b)).Quiet();
    hide Two;
    hide Order;
    hide PlanOf;
    hide Sound;
    hide Ledger;
    hide BorrowRound;
    BorrowRoundLedger(MACHINE, sel, Two(a, b), Order(a, b), {a});
  }

  /**
   * Everything a round relies on holds, and the lender's command fails: the lender has given up half of its limit and
   * is not marked as lending, while the borrower's loan names it. The ledger is broken, and no return round will
   * call the loan back.
   */
  lemma FailedLenderLosesLoan(sel: Selector, a: string, b: string)
    requires sel.Calm() && a != b
    ensures MACHINE.Uniform() && CanBorrowRound(MACHINE, sel, Two(a, b), Order(a, b))
    ensures var r := BorrowRound(MACHINE, sel, Two(a, b), Order(a, b), {a});
            && r.dockers[a].current == 1.0 && !r.dockers[a].lended
            && r.dockers[b].current == 3.0 && r.dockers[b].borrow == map[a := 1.0]
            && !Ledger(r.dockers) && forall order :: (forall id :: id in order ==> id in r.dockers) ==> a !in Recallers(r, order)
  {
    TwoReady(sel, a, b);
    RoundBooks(sel, a, b);
    RoundLedger(sel, a, b);
    hide CanBorrowRound;
    hide BorrowRound;
    hide Ledger;
    BrokenBooks(BorrowRound(MACHINE, sel, Two(a, b), Order(a, b), {a}), a, b);
    NotRecalled(BorrowRound(MACHINE, sel, Two(a, b), Order(a, b), {a}), a);
    hide Recallers;
    hide Two;
    hide PlanOf;
    hide Book;
    hide BorrowBook;
  }
}
