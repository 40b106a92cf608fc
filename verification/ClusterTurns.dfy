/** Loops over containers: what each turn may rely on, and how it extends the round. */
module ClusterTurns {
  import opened Seqs
  import opened Topologies
  import opened Ceilings
  import opened ClusterSelection
  import opened ClusterSpec
  import opened ClusterInvariant
  import opened ClusterSteps
  import opened ClusterRounds
  import opened ClusterSound
  import opened ClusterLedger
  import opened ClusterReturns
  import opened ClusterBulk

  lemma Prefixes(ids: seq<string>, i: nat)
    requires i < |ids| && NoDup(ids)
    ensures NoDup(ids[..i + 1]) && Init(ids[..i + 1]) == ids[..i] && Last(ids[..i + 1]) == ids[i]
    ensures ids[i] !in ids[..i] && ids[..i + 1] == ids[..i] + [ids[i]]
  {
  }

  lemma {:induction false} FitsPrefix(t: Topology, s: State, ids: seq<string>, amount: string -> real, i: nat)
    requires t.Uniform() && i <= |ids| && (forall id :: id in ids ==> id in s.dockers) && Fits(t, s, ids, amount)
    ensures (forall id :: id in ids[..i] ==> id in s.dockers) && Fits(t, s, ids[..i], amount)
    decreases |ids|
  {
    hide Fits;
    if i < |ids| {
      DemandPrefix(t, s, ids, amount);
      FitsPrefix(t, s, Init(ids), amount, i);
      assert Init(ids)[..i] == ids[..i];
    } else {
      assert ids[..i] == ids;
    }
  }

  /** What a borrow round may rely on before its additions. */
  ghost predicate CanBorrow(t: Topology, sel: Selector, s: State, ids: seq<string>, limit: real) {
    && Sound(t, s) && sel.Calm() && NoDup(ids) && limit >= 0.0
    && (forall id :: id in ids ==> id in BoundIds(s)) && Fits(t, s, ids, Always(limit))
  }

  lemma BorrowReady(t: Topology, sel: Selector, s: State, ids: seq<string>, limit: real, shares: map<string, real>, i: nat)
    requires CanBorrow(t, sel, s, ids, limit) && i < |ids|
    ensures t.Uniform() && (forall id :: id in ids ==> id in s.dockers)
    ensures (forall id :: id in ids[..i] ==> id in s.dockers) && (forall id :: id in ids[..i + 1] ==> id in s.dockers)
    ensures var m := BorrowAll(t, sel, s, ids[..i], limit, shares);
            && CanAdd(t, m, ids[i], limit)
            && BorrowAll(t, sel, s, ids[..i + 1], limit, shares) == BorrowTurn(t, sel, m, ids[i], limit, shares)
            && forall j :: j in s.dockers && j !in ids ==> m.dockers[j] == s.dockers[j]
  {
    assert t.Uniform();
    hide Sound;
    hide NewClusters;
    hide BorrowTurn;
    Prefixes(ids, i);
    FitsPrefix(t, s, ids, Always(limit), i);
    FitsPrefix(t, s, ids, Always(limit), i + 1);
    hide Fits;
    BorrowAllKeeps(t, sel, s, ids[..i], limit, shares);
    LastFits(t, s, BorrowAll(t, sel, s, ids[..i], limit, shares), ids[..i + 1], Always(limit));
  }

  ghost predicate CanRecall(t: Topology, sel: Selector, s: State, ids: seq<string>) {
    && Sound(t, s) && sel.Calm() && NoDup(ids)
    && (forall id :: id in ids ==> id in BoundIds(s) && s.dockers[id].lend >= 0.0) && Fits(t, s, ids, LendOf(s))
  }

  lemma RecallReady(t: Topology, sel: Selector, s: State, ids: seq<string>, i: nat)
    requires CanRecall(t, sel, s, ids) && i < |ids|
    ensures t.Uniform() && (forall id :: id in ids ==> id in s.dockers)
    ensures (forall id :: id in ids[..i] ==> id in s.dockers) && (forall id :: id in ids[..i + 1] ==> id in s.dockers)
    ensures var m := RecallAll(t, sel, s, ids[..i]);
            && ids[i] in m.dockers && CanAdd(t, m, ids[i], m.dockers[ids[i]].lend)
            && RecallAll(t, sel, s, ids[..i + 1]) == RecallTurn(t, sel, m, ids[i])
  {
    assert t.Uniform();
    hide Sound;
    hide NewClusters;
    hide RecallTurn;
    Prefixes(ids, i);
    FitsPrefix(t, s, ids, LendOf(s), i);
    FitsPrefix(t, s, ids, LendOf(s), i + 1);
    hide Fits;
    RecallAllKeeps(t, sel, s, ids[..i]);
    LastFits(t, s, RecallAll(t, sel, s, ids[..i]), ids[..i + 1], LendOf(s));
  }

  ghost predicate CanLendAll(t: Topology, s: State, ids: seq<string>) {
    && Sound(t, s) && NoDup(ids)
    && forall id :: id in ids ==> id in BoundIds(s) && 0.0 <= s.dockers[id].lend <= s.dockers[id].current
  }

  lemma LendReady(t: Topology, s: State, ids: seq<string>, failed: set<string>, i: nat)
    requires CanLendAll(t, s, ids) && i < |ids|
    ensures (forall id :: id in ids ==> id in s.dockers)
    ensures (forall id :: id in ids[..i] ==> id in s.dockers) && (forall id :: id in ids[..i + 1] ==> id in s.dockers)
    ensures var m := LendAll(s, ids[..i], failed);
            && ids[i] in m.dockers && CanMinus(t, m, ids[i], m.dockers[ids[i]].lend)
            && LendAll(s, ids[..i + 1], failed) == LendTurn(m, ids[i], failed)
  {
    assert t.Uniform();
    hide Sound;
    hide LendTurn;
    Prefixes(ids, i);
    LendAllKeeps(t, s, ids[..i], failed);
    assert ids[i] in ids;
    assert LendAll(s, ids[..i], failed).dockers[ids[i]] == s.dockers[ids[i]];
  }

  ghost predicate CanRepay(t: Topology, s: State, order: seq<string>, owed: map<string, real>) {
    && Sound(t, s) && NoDup(order) && (forall id :: id in order ==> id in s.dockers)
    && forall id :: id in order && id in owed ==> id in BoundIds(s) && 0.0 <= owed[id] <= s.dockers[id].current
  }

  lemma RepayReady(t: Topology, s: State, order: seq<string>, owed: map<string, real>, i: nat)
    requires CanRepay(t, s, order, owed) && i < |order|
    ensures (forall id :: id in order[..i] ==> id in s.dockers) && (forall id :: id in order[..i + 1] ==> id in s.dockers)
    ensures var m := RepayAll(s, order[..i], owed);
            && order[i] in m.dockers && (order[i] in owed ==> CanMinus(t, m, order[i], owed[order[i]]))
            && RepayAll(s, order[..i + 1], owed) == if order[i] in owed then MinusLimit(m, order[i], owed[order[i]]) else m
  {
    assert t.Uniform();
    hide Sound;
    hide MinusLimit;
    Prefixes(order, i);
    RepayAllKeeps(t, s, order[..i], owed);
    assert RepayAll(s, order[..i], owed).dockers[order[i]] == s.dockers[order[i]];
  }

  /** A container that a bind turn would bind can be bound. */
  ghost predicate BindTurnReady(t: Topology, s: State, id: string, home: int) {
    && t.Uniform() && id in s.dockers && t.Cores() > 0
    && var d := s.dockers[id];
       !d.bound && d.initial > 0.0 ==>
         var m := ClustersFor(t, d.initial);
         m >= 0 && (m <= |NodeAt(s.nodes, home).free| ==> CanBind(t, s, id, home, m))
  }

  lemma CanBindFits(t: Topology, s: State, id: string, home: int)
    requires Sound(t, s) && id in s.dockers && t.IsNode(home)
    ensures BindTurnReady(t, s, id, home)
  {
    hide Partitioned;
    hide Placed;
    var d := s.dockers[id];
    PlacedIn(t, s, BoundIds(s), id);
    if !d.bound && d.initial > 0.0 {
      CeilOfQuotient(d.initial, t.Cores());
      var m := ClustersFor(t, d.initial);
      if m <= |NodeAt(s.nodes, home).free| {
        PartitionedCanBind(t, s, BoundIds(s), id, home, m);
        hide CanBind;
      }
    }
  }

  // ---------- Lists built turn by turn ----------

  lemma OfferedMore(s: State, lenders: seq<string>, id: string)
    requires (forall k :: k in lenders ==> k in s.dockers) && id in s.dockers && id !in lenders
    ensures var o := Offered(s, lenders);
            && o.dockers[id] == s.dockers[id]
            && Offered(s, lenders + [id]) == o.(dockers := o.dockers[id := s.dockers[id].(lend := Offer(s.dockers[id]))])
  {
  }

  lemma {:induction false} TotalOfferSame(a: State, b: State, lenders: seq<string>)
    requires forall k :: k in lenders ==> k in a.dockers && k in b.dockers && a.dockers[k] == b.dockers[k]
    ensures TotalOffer(a, lenders) == TotalOffer(b, lenders)
    decreases |lenders|
  {
    if |lenders| > 0 {
      InitLast(lenders);
      TotalOfferSame(a, b, Init(lenders));
    }
  }

  lemma TotalOfferMore(a: State, b: State, lenders: seq<string>, id: string)
    requires (forall k :: k in lenders ==> k in a.dockers) && id !in lenders && id in b.dockers
    requires b.dockers.Keys == a.dockers.Keys && forall k :: k in a.dockers && k != id ==> b.dockers[k] == a.dockers[k]
    ensures TotalOffer(b, lenders + [id]) == TotalOffer(a, lenders) + b.dockers[id].lend
  {
    assert Init(lenders + [id]) == lenders && Last(lenders + [id]) == id;
    TotalOfferSame(a, b, lenders);
  }

  lemma SharesMore(s: State, lenders: seq<string>, j: nat, n: nat, borrow: map<string, real>)
    requires n > 0 && j < |lenders| && forall k :: k in lenders ==> k in s.dockers
    ensures forall k :: k in lenders[..j] || k in lenders[..j + 1] ==> k in s.dockers
    ensures borrow + Shares(s, lenders[..j + 1], n) ==
              (borrow + Shares(s, lenders[..j], n))[lenders[j] := s.dockers[lenders[j]].lend / n as real]
  {
    assert lenders[..j + 1] == lenders[..j] + [lenders[j]];
  }

  lemma SharesSame(a: State, b: State, lenders: seq<string>, n: nat)
    requires n > 0 && forall k :: k in lenders ==> k in a.dockers && k in b.dockers && a.dockers[k] == b.dockers[k]
    ensures Shares(a, lenders, n) == Shares(b, lenders, n)
  {
  }

  /** An addition rewrites no other container. */
  lemma AddOthers(t: Topology, sel: Selector, s: State, id: string, limit: real)
    requires CanAdd(t, s, id, limit) && sel.Calm()
    ensures var r := AddLimit(t, sel, s, id, limit);
            r.dockers.Keys == s.dockers.Keys && forall j :: j in s.dockers && j != id ==> r.dockers[j] == s.dockers[j]
  {
    hide Sound;
    hide AddLimit;
    AddLimitKeeps(t, sel, s, id, limit);
  }

  // ---------- Whole rounds ----------

  /** What a borrow round relies on. */
  ghost predicate CanBorrowRound(t: Topology, sel: Selector, s: State, order: seq<string>) {
    && Sound(t, s) && Ledger(s.dockers) && Lists(order, s.dockers) && Participants(s) && sel.Calm() && BorrowFits(t, s, order)
  }

  function PlanShares(p: Plan): map<string, real>
    requires |p.borrowers| > 0 && forall id :: id in p.lenders ==> id in p.offered.dockers
  {
    Shares(p.offered, p.lenders, |p.borrowers|)
  }

  lemma LendersReady(t: Topology, sel: Selector, p: Plan, limit: real, shares: map<string, real>)
    requires CanBorrow(t, sel, p.offered, p.borrowers, limit) && NoDup(p.lenders)
    requires forall id :: id in p.lenders ==> id !in p.borrowers && id in BoundIds(p.offered)
    requires forall id :: id in p.lenders ==> 0.0 <= p.offered.dockers[id].lend <= p.offered.dockers[id].current
    ensures t.Uniform() && forall id :: id in p.borrowers ==> id in p.offered.dockers
    ensures CanLendAll(t, BorrowAll(t, sel, p.offered, p.borrowers, limit, shares), p.lenders)
  {
    assert t.Uniform();
    hide Sound;
    BorrowAllKeeps(t, sel, p.offered, p.borrowers, limit, shares);
    var m := BorrowAll(t, sel, p.offered, p.borrowers, limit, shares);
    hide BorrowAll;
    hide Demand;
    forall id | id in p.lenders ensures id in BoundIds(m) && 0.0 <= m.dockers[id].lend <= m.dockers[id].current {
      assert m.dockers[id] == p.offered.dockers[id];
    }
  }

  /** What a plan that is carried out guarantees. */
  ghost predicate PlanGood(t: Topology, sel: Selector, p: Plan) {
    && |p.borrowers| > 0 && CanBorrow(t, sel, p.offered, p.borrowers, p.Limit())
    && (forall id :: id in p.lenders ==> id !in p.borrowers && id in p.offered.dockers)
    && (forall id :: id in p.borrowers ==> id in p.offered.dockers)
    && CanLendAll(t, BorrowAll(t, sel, p.offered, p.borrowers, p.Limit(), PlanShares(p)), p.lenders)
  }

  /** The state once a good plan has been carried out. */
  ghost function CarriedOut(t: Topology, sel: Selector, p: Plan, failed: set<string>): State
    requires t.Uniform() && PlanGood(t, sel, p)
  {
    LendAll(BorrowAll(t, sel, p.offered, p.borrowers, p.Limit(), PlanShares(p)), p.lenders, failed)
  }

  lemma BorrowRoundIsPlan(t: Topology, sel: Selector, s: State, order: seq<string>, failed: set<string>)
    requires t.Uniform() && (forall id :: id in order ==> id in s.dockers)
    requires PlanOf(s, order).Quiet() || PlanGood(t, sel, PlanOf(s, order))
    ensures var p := PlanOf(s, order);
            BorrowRound(t, sel, s, order, failed) == if p.Quiet() then p.offered else CarriedOut(t, sel, p, failed)
  {
    RoundIsPlan(t, sel, s, order, failed);
    hide BorrowRound;
    hide PlanOf;
  }

  lemma PlanKnown(p: Plan)
    requires forall id :: id in p.lenders || id in p.borrowers ==> id in BoundIds(p.offered)
    ensures forall id :: id in p.lenders || id in p.borrowers ==> id in p.offered.dockers
  {
  }

  lemma BorrowPossible(t: Topology, sel: Selector, p: Plan)
    requires Sound(t, p.offered) && sel.Calm() && |p.borrowers| > 0 && p.Limit() >= 0.0 && NoDup(p.borrowers)
    requires forall id :: id in p.borrowers ==> id in BoundIds(p.offered)
    requires Fits(t, p.offered, p.borrowers, Always(p.Limit()))
    ensures CanBorrow(t, sel, p.offered, p.borrowers, p.Limit())
  {
    hide Sound;
    hide Fits;
  }

  lemma PlanIsGood(t: Topology, sel: Selector, p: Plan)
    requires Sound(t, p.offered) && sel.Calm() && |p.borrowers| > 0 && p.Limit() >= 0.0
    requires NoDup(p.lenders) && NoDup(p.borrowers) && forall id :: id in p.lenders ==> id !in p.borrowers
    requires forall id :: id in p.lenders || id in p.borrowers ==> id in BoundIds(p.offered)
    requires forall id :: id in p.lenders ==> 0.0 <= p.offered.dockers[id].lend <= p.offered.dockers[id].current
    requires Fits(t, p.offered, p.borrowers, Always(p.Limit()))
    ensures PlanGood(t, sel, p)
  {
    hide Sound;
    hide Fits;
    hide BoundIds;
    hide Always;
    hide PlanShares;
    hide BorrowAll;
    PlanKnown(p);
    BorrowPossible(t, sel, p);
    hide CanBorrow;
    LendersReady(t, sel, p, p.Limit(), PlanShares(p));
    hide CanLendAll;
    hide NoDup;
  }

  lemma BorrowRoundReady(t: Topology, sel: Selector, s: State, order: seq<string>)
    requires CanBorrowRound(t, sel, s, order)
    ensures t.Uniform() && Lists(order, s.dockers)
    ensures PlanOf(s, order).Quiet() || PlanGood(t, sel, PlanOf(s, order))
  {
    var p := PlanOf(s, order);
    assert BorrowFits(t, s, order) && t.Uniform() && sel.Calm() && Lists(order, s.dockers);
    PlanFacts(s, order);
    PlanReady(t, s, order);
    hide PlanOf;
    hide Sound;
    hide Ledger;
    hide Lists;
    hide Fits;
    hide PlanGood;
    if !p.Quiet() {
      PlanIsGood(t, sel, p);
    }
  }

  /** What a return round relies on. */
  ghost predicate CanReturnRound(t: Topology, sel: Selector, s: State, order: seq<string>, order2: seq<string>) {
    && Sound(t, s) && Ledger(s.dockers) && Lists(order, s.dockers) && Lists(order2, s.dockers) && sel.Calm() && ReturnFits(t, s, order)
  }

  lemma DebtorsReady(t: Topology, sel: Selector, s: State, R: seq<string>, order2: seq<string>)
    requires CanRecall(t, sel, Cleared(s, R), R) && Ledger(s.dockers) && Lists(order2, s.dockers)
    requires forall id :: id in R ==> id in s.dockers && s.dockers[id].lended
    ensures t.Uniform() && CanRepay(t, RecallAll(t, sel, Cleared(s, R), R), order2, Debts(s, R))
  {
    assert t.Uniform();
    hide Sound;
    RecallAllKeeps(t, sel, Cleared(s, R), R);
    var m := RecallAll(t, sel, Cleared(s, R), R);
    hide RecallAll;
    hide Fits;
    hide Demand;
    forall i | i in s.dockers && i in Debts(s, R)
      ensures i in BoundIds(m) && 0.0 <= Debts(s, R)[i] <= m.dockers[i].current
    {
      RecalledBook(s, R, i, m.dockers[i]);
      DebtCovered(s, R, i);
      if i in R {
        LendNonNegative(s, i);
      }
      hide Ledger;
    }
  }

  /** What a list of containers to be called back guarantees. */
  ghost predicate RecallGood(t: Topology, sel: Selector, s: State, R: seq<string>, order2: seq<string>) {
    && NoDup(R) && t.Uniform() && (forall id :: id in R ==> id in s.dockers)
    && CanRecall(t, sel, Cleared(s, R), R)
    && CanRepay(t, RecallAll(t, sel, Cleared(s, R), R), order2, Debts(s, R))
  }

  ghost function TakenBack(t: Topology, sel: Selector, s: State, R: seq<string>, order2: seq<string>): State
    requires t.Uniform() && RecallGood(t, sel, s, R, order2)
  {
    RepayAll(RecallAll(t, sel, Cleared(s, R), R), order2, Debts(s, R))
  }

  lemma ReturnRoundIsTakenBack(t: Topology, sel: Selector, s: State, order: seq<string>, order2: seq<string>)
    requires t.Uniform() && Lists(order, s.dockers) && Lists(order2, s.dockers)
    requires RecallGood(t, sel, s, Recallers(s, order), order2)
    ensures ReturnRound(t, sel, s, order, order2) ==
              if |Recallers(s, order)| == 0 then s else TakenBack(t, sel, s, Recallers(s, order), order2)
  {
    hide Recallers;
  }

  lemma ReturnRoundReady(t: Topology, sel: Selector, s: State, order: seq<string>, order2: seq<string>)
    requires CanReturnRound(t, sel, s, order, order2)
    ensures Lists(order, s.dockers) && Lists(order2, s.dockers) && RecallGood(t, sel, s, Recallers(s, order), order2)
  {
    assert t.Uniform() && ReturnFits(t, s, order) && sel.Calm();
    var R := Recallers(s, order);
    RecallerFacts(t, s, order);
    ClearedSound(t, s, R);
    hide Sound;
    hide Ledger;
    hide Recallers;
    hide Fits;
    assert CanRecall(t, sel, Cleared(s, R), R);
    hide CanRecall;
    DebtorsReady(t, sel, s, R, order2);
    hide CanRepay;
  }

  // ---------- Collecting debts ----------

  /** The debts with what everybody owes to one more lender. */
  ghost function OneMore(dockers: map<string, Docker>, debts: map<string, real>, lender: string): map<string, real> {
    map id | id in debts.Keys + dockers.Keys && (id in debts || (id in dockers && lender in dockers[id].borrow)) ::
      (if id in debts then debts[id] else 0.0) + (if id in dockers && lender in dockers[id].borrow then dockers[id].borrow[lender] else 0.0)
  }

  ghost function ClearedOf(dockers: map<string, Docker>, lender: string): map<string, Docker> {
    map id | id in dockers :: dockers[id].(borrow := dockers[id].borrow - {lender})
  }

  lemma ClearedNone(s: State)
    ensures Cleared(s, []) == s && Debts(s, []) == map[]
  {
    forall id | id in s.dockers ensures s.dockers[id].borrow - SetOf<string>([]) == s.dockers[id].borrow {
    }
    assert Cleared(s, []).dockers == s.dockers;
  }

  lemma ClearedMore(s: State, R: seq<string>, k: nat)
    requires k < |R| && NoDup(R)
    ensures var c := Cleared(s, R[..k]);
            Cleared(s, R[..k + 1]) == c.(dockers := ClearedOf(c.dockers, R[k]))
  {
    var c := Cleared(s, R[..k]);
    forall id | id in s.dockers
      ensures s.dockers[id].borrow - SetOf(R[..k + 1]) == c.dockers[id].borrow - {R[k]}
    {
      DebtMore(s.dockers[id].borrow, R, k);
    }
    hide SetOf;
    assert Cleared(s, R[..k + 1]).dockers == ClearedOf(c.dockers, R[k]);
  }

  lemma DebtEntry(s: State, R: seq<string>, k: nat, id: string)
    requires k < |R| && NoDup(R)
    ensures var a, b := Debts(s, R[..k + 1]), OneMore(Cleared(s, R[..k]).dockers, Debts(s, R[..k]), R[k]);
            (id in a <==> id in b) && (id in a ==> a[id] == b[id])
  {
    if id in s.dockers {
      DebtMore(s.dockers[id].borrow, R, k);
    }
    hide Owes;
    hide Owed;
    hide SetOf;
    hide NoDup;
  }

  lemma DebtsMore(s: State, R: seq<string>, k: nat)
    requires k < |R| && NoDup(R)
    ensures Debts(s, R[..k + 1]) == OneMore(Cleared(s, R[..k]).dockers, Debts(s, R[..k]), R[k])
  {
    var a, b := Debts(s, R[..k + 1]), OneMore(Cleared(s, R[..k]).dockers, Debts(s, R[..k]), R[k]);
    forall id ensures (id in a <==> id in b) && (id in a ==> a[id] == b[id]) {
      DebtEntry(s, R, k, id);
    }
    hide Debts;
    hide OneMore;
    hide Cleared;
  }

  lemma DebtMore(borrow: map<string, real>, R: seq<string>, k: nat)
    requires k < |R| && NoDup(R)
    ensures var left := borrow - SetOf(R[..k]);
            && borrow - SetOf(R[..k + 1]) == left - {R[k]}
            && (Owes(borrow, R[..k + 1]) <==> Owes(borrow, R[..k]) || R[k] in left)
            && Owed(borrow, R[..k + 1]) == (if Owes(borrow, R[..k]) then Owed(borrow, R[..k]) else 0.0) +
                                           (if R[k] in left then left[R[k]] else 0.0)
  {
    Prefixes(R, k);
    assert SetOf(R[..k + 1]) == SetOf(R[..k]) + {R[k]};
    NothingOwed(borrow, R[..k]);
    assert R[k] in R[..k + 1];
  }

  lemma {:induction false} NothingOwed(borrow: map<string, real>, lenders: seq<string>)
    ensures !Owes(borrow, lenders) ==> Owed(borrow, lenders) == 0.0
    decreases |lenders|
  {
    if |lenders| > 0 && !Owes(borrow, lenders) {
      InitLast(lenders);
      assert Last(lenders) in lenders;
      NothingOwed(borrow, Init(lenders));
    }
  }

  lemma OneMoreStart(order: seq<string>, dockers: map<string, Docker>, debts: map<string, real>, lender: string)
    requires debts.Keys <= dockers.Keys
    ensures ClearedPart(dockers, order, 0, lender) == dockers && OneMorePart(dockers, debts, order, 0, lender) == debts
  {
  }

  lemma OneMoreEnd(order: seq<string>, dockers: map<string, Docker>, debts: map<string, real>, lender: string)
    requires Lists(order, dockers) && debts.Keys <= dockers.Keys
    ensures ClearedPart(dockers, order, |order|, lender) == ClearedOf(dockers, lender)
    ensures OneMorePart(dockers, debts, order, |order|, lender) == OneMore(dockers, debts, lender)
  {
    assert order[..|order|] == order;
    assert forall id :: id in dockers && lender !in dockers[id].borrow ==> dockers[id].borrow - {lender} == dockers[id].borrow;
  }

  /** ClearedOf and OneMore for the first j containers of the order only. */
  ghost function ClearedPart(dockers: map<string, Docker>, order: seq<string>, j: nat, lender: string): map<string, Docker>
    requires j <= |order|
  {
    map id | id in dockers ::
      if id in order[..j] && lender in dockers[id].borrow then dockers[id].(borrow := dockers[id].borrow - {lender}) else dockers[id]
  }

  ghost predicate NewDebt(dockers: map<string, Docker>, order: seq<string>, j: nat, lender: string, id: string)
    requires j <= |order|
  {
    id in dockers && id in order[..j] && lender in dockers[id].borrow
  }

  ghost function OneMorePart(dockers: map<string, Docker>, debts: map<string, real>, order: seq<string>, j: nat, lender: string): map<string, real>
    requires j <= |order|
  {
    map id | id in debts.Keys + dockers.Keys && (id in debts || NewDebt(dockers, order, j, lender, id)) ::
      (if id in debts then debts[id] else 0.0) + (if NewDebt(dockers, order, j, lender, id) then dockers[id].borrow[lender] else 0.0)
  }

  lemma ClearedStep(dockers: map<string, Docker>, order: seq<string>, j: nat, lender: string)
    requires j < |order| && NoDup(order) && order[j] in dockers
    ensures var id := order[j];
            var d0 := ClearedPart(dockers, order, j, lender);
            && d0[id] == dockers[id]
            && ClearedPart(dockers, order, j + 1, lender) ==
                 (if lender in dockers[id].borrow then d0[id := d0[id].(borrow := d0[id].borrow - {lender})] else d0)
  {
    Prefixes(order, j);
  }

  lemma DebtsStep(dockers: map<string, Docker>, debts: map<string, real>, order: seq<string>, j: nat, lender: string)
    requires j < |order| && NoDup(order) && order[j] in dockers && debts.Keys <= dockers.Keys
    ensures var id := order[j];
            var m0 := OneMorePart(dockers, debts, order, j, lender);
            && OneMorePart(dockers, debts, order, j + 1, lender) ==
                 (if lender in dockers[id].borrow then m0[id := (if id in m0 then m0[id] else 0.0) + dockers[id].borrow[lender]] else m0)
  {
    Prefixes(order, j);
    var id := order[j];
    assert !NewDebt(dockers, order, j, lender, id);
    forall k ensures NewDebt(dockers, order, j + 1, lender, k) <==>
                     NewDebt(dockers, order, j, lender, k) || (k == id && lender in dockers[id].borrow)
    {
    }
    hide NewDebt;
    hide NoDup;
  }

  /** A list built one element longer. */
  lemma RecallersMore(s: State, order: seq<string>, i: nat)
    requires i < |order| && forall id :: id in order ==> id in s.dockers
    ensures forall id :: id in order[..i] || id in order[..i + 1] ==> id in s.dockers
    ensures Recallers(s, order[..i + 1]) == Recallers(s, order[..i]) + (if WantsBack(s.dockers[order[i]]) then [order[i]] else [])
  {
    assert Init(order[..i + 1]) == order[..i];
  }
}
