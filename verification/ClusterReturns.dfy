/** The loan ledger through a return round. */
module ClusterReturns {
  import opened Seqs
  import opened Sums
  import opened Topologies
  import opened ClusterSelection
  import opened ClusterSpec
  import opened ClusterRounds
  import opened ClusterSteps
  import opened ClusterSound
  import opened ClusterLedger

  /** Enough free clusters on every node for everything that is called back, checked before the round. */
  ghost predicate ReturnFits(t: Topology, s: State, order: seq<string>)
    requires t.Uniform() && forall id :: id in order ==> id in s.dockers
  {
    var c := Cleared(s, Recallers(s, order));
    Fits(t, c, Recallers(s, order), LendOf(c))
  }

  /** Container i after the loans of R were taken back: d before, e after. */
  ghost predicate Returned(R: seq<string>, i: string, d: Docker, e: Docker) {
    && e.bound == d.bound && e.initial == d.initial && e.lend == d.lend && e.usage == d.usage && e.usageSum == d.usageSum
    && e.lended == (d.lended && i !in R)
    && e.borrow == d.borrow - SetOf(R)
    && e.current == d.current + (if i in R then d.lend else 0.0) - Owed(d.borrow, R)
  }

  lemma RecallerFacts(t: Topology, s: State, order: seq<string>)
    requires Ledger(s.dockers) && Lists(order, s.dockers)
    ensures var R := Recallers(s, order);
            NoDup(R) && forall id :: id in R ==> id in BoundIds(s) && s.dockers[id].lended && s.dockers[id].lend >= 0.0
  {
    RecallersOnce(s, order);
    forall id | id in Recallers(s, order) ensures id in BoundIds(s) && s.dockers[id].lended && s.dockers[id].lend >= 0.0 {
      assert Proper(s.dockers[id]);
    }
  }

  lemma ClearedSound(t: Topology, s: State, R: seq<string>)
    requires Sound(t, s)
    ensures Sound(t, Cleared(s, R)) && BoundIds(Cleared(s, R)) == BoundIds(s)
  {
    hide Sound;
    BookKeeps(t, s, Cleared(s, R));
  }

  /** What a container owes is part of what it has borrowed, so its limit covers it. */
  lemma DebtCovered(s: State, R: seq<string>, i: string)
    requires Ledger(s.dockers) && i in s.dockers && NoDup(R) && forall id :: id in R ==> id in s.dockers
    ensures 0.0 <= Owed(s.dockers[i].borrow, R) <= Borrowed(s.dockers.Keys, s.dockers[i])
    ensures Owes(s.dockers[i].borrow, R) ==> s.dockers[i].bound && Owed(s.dockers[i].borrow, R) <= s.dockers[i].current
    ensures !Owes(s.dockers[i].borrow, R) ==> Owed(s.dockers[i].borrow, R) == 0.0
  {
    var d, K := s.dockers[i], s.dockers.Keys;
    assert NamesLenders(s.dockers, d) && Balanced(K, d) && Proper(d);
    hide Ledger;
    assert Owes(d.borrow, R) ==> d.borrow != map[];
    PartialSum(K, R, d);
    hide NamesLenders;
    hide SharesOf;
    hide Owed;
    hide Owes;
  }

  lemma PartialSum(K: set<string>, R: seq<string>, d: Docker)
    requires NoDup(R) && (forall id :: id in R ==> id in K) && forall id :: id in d.borrow ==> d.borrow[id] >= 0.0
    ensures 0.0 <= Owed(d.borrow, R) <= Borrowed(K, d)
    ensures !Owes(d.borrow, R) ==> Owed(d.borrow, R) == 0.0
  {
    assert SetOf(R) <= K;
    OwedIsSum(d, R);
    SumSplit(K, SetOf(R), SharesOf(d));
    SumNonNegative(SetOf(R), SharesOf(d));
    SumNonNegative(K - SetOf(R), SharesOf(d));
  }

  /** A return round keeps the state sound and moves each limit by exactly what comes back and what is owed. */
  lemma ReturnRoundBooks(t: Topology, sel: Selector, s: State, order: seq<string>, order2: seq<string>)
    requires Sound(t, s) && Ledger(s.dockers) && Lists(order, s.dockers) && Lists(order2, s.dockers) && sel.Calm()
    requires ReturnFits(t, s, order)
    ensures var r := ReturnRound(t, sel, s, order, order2);
            && Sound(t, r)
            && forall i :: i in s.dockers ==> Returned(Recallers(s, order), i, s.dockers[i], r.dockers[i])
  {
    assert t.Uniform();
    var R := Recallers(s, order);
    RecallerFacts(t, s, order);
    assert ReturnFits(t, s, order);
    hide Sound;
    hide Ledger;
    hide Lists;
    hide Recallers;
    hide Returned;
    if |R| == 0 {
      forall i | i in s.dockers ensures Returned(R, i, s.dockers[i], s.dockers[i]) {
        NothingReturned(R, i, s.dockers[i]);
      }
    } else {
      ActiveReturn(t, sel, s, R, order2);
    }
  }

  lemma NothingReturned(R: seq<string>, i: string, d: Docker)
    requires |R| == 0
    ensures Returned(R, i, d, d)
  {
    assert d.borrow - SetOf(R) == d.borrow;
  }

  lemma ActiveReturn(t: Topology, sel: Selector, s: State, R: seq<string>, order2: seq<string>)
    requires Sound(t, s) && Ledger(s.dockers) && Lists(order2, s.dockers) && sel.Calm() && NoDup(R)
    requires forall id :: id in R ==> id in BoundIds(s) && s.dockers[id].lended && s.dockers[id].lend >= 0.0
    requires Fits(t, Cleared(s, R), R, LendOf(Cleared(s, R)))
    ensures var r := RepayAll(RecallAll(t, sel, Cleared(s, R), R), order2, Debts(s, R));
            && Sound(t, r)
            && forall i :: i in s.dockers ==> Returned(R, i, s.dockers[i], r.dockers[i])
  {
    assert t.Uniform();
    hide Ledger;
    hide Lists;
    ClearedSound(t, s, R);
    hide Sound;
    RecallAllKeeps(t, sel, Cleared(s, R), R);
    RepayKeeps(t, s, RecallAll(t, sel, Cleared(s, R), R), R, order2);
  }

  lemma RepayKeeps(t: Topology, s: State, m: State, R: seq<string>, order2: seq<string>)
    requires Ledger(s.dockers) && Lists(order2, s.dockers) && NoDup(R) && forall id :: id in R ==> id in s.dockers && s.dockers[id].lended
    requires Sound(t, m) && m.dockers.Keys == s.dockers.Keys
    requires forall i :: i in s.dockers ==>
               var c := Cleared(s, R).dockers[i]; if i in R then Book(m.dockers[i]) == AfterRecall(c) else m.dockers[i] == c
    ensures var r := RepayAll(m, order2, Debts(s, R));
            && Sound(t, r)
            && forall i :: i in s.dockers ==> Returned(R, i, s.dockers[i], r.dockers[i])
  {
    hide Sound;
    hide Ledger;
    var owed := Debts(s, R);
    forall i | i in s.dockers
      ensures i in owed ==> i in BoundIds(m) && 0.0 <= owed[i] <= m.dockers[i].current
    {
      DebtCovered(s, R, i);
      RecalledBook(s, R, i, m.dockers[i]);
      if i in R {
        LendNonNegative(s, i);
      }
    }
    RepayAllKeeps(t, m, order2, owed);
    var r := RepayAll(m, order2, owed);
    hide Cleared;
    hide Book;
    forall i | i in s.dockers ensures Returned(R, i, s.dockers[i], r.dockers[i]) {
      RepaidBook(s, m, R, i, r.dockers[i]);
    }
  }

  lemma LendNonNegative(s: State, i: string)
    requires Ledger(s.dockers) && i in s.dockers && s.dockers[i].lended
    ensures s.dockers[i].lend >= 0.0
  {
    assert Proper(s.dockers[i]);
  }

  lemma RepaidBook(s: State, m: State, R: seq<string>, i: string, e: Docker)
    requires Ledger(s.dockers) && i in s.dockers && i in m.dockers
    requires NoDup(R) && forall id :: id in R ==> id in s.dockers && s.dockers[id].lended
    requires var c := Cleared(s, R).dockers[i]; if i in R then Book(m.dockers[i]) == AfterRecall(c) else m.dockers[i] == c
    requires var owed := Debts(s, R); if i in owed then Book(e) == AfterRepay(m.dockers[i], owed[i]) else e == m.dockers[i]
    ensures Returned(R, i, s.dockers[i], e)
  {
    DebtCovered(s, R, i);
    RecalledBook(s, R, i, m.dockers[i]);
    hide Ledger;
    var owed := Debts(s, R);
    if i in owed {
      BookFields(e, m.dockers[i].(current := m.dockers[i].current - owed[i]));
    }
  }

  /** The books after the lenders' limits have been restored. */
  lemma RecalledBook(s: State, R: seq<string>, i: string, e: Docker)
    requires i in s.dockers && (i in R ==> s.dockers[i].lended)
    requires var c := Cleared(s, R).dockers[i]; if i in R then Book(e) == AfterRecall(c) else e == c
    ensures var d := s.dockers[i];
            && e.bound == d.bound && e.initial == d.initial && e.lend == d.lend && e.usage == d.usage && e.usageSum == d.usageSum
            && e.lended == (d.lended && i !in R) && e.borrow == d.borrow - SetOf(R)
            && e.current == d.current + (if i in R then d.lend else 0.0)
  {
    var c := Cleared(s, R).dockers[i];
    if i in R {
      BookFields(e, c.(current := c.current + c.lend, lended := false));
    }
  }

  /** Moving each account by what comes back and what is owed keeps the ledger. */
  lemma ReturnedLedger(s: State, r: State, R: seq<string>)
    requires Ledger(s.dockers) && r.dockers.Keys == s.dockers.Keys
    requires NoDup(R) && forall id :: id in R ==> id in s.dockers && s.dockers[id].lended
    requires forall i :: i in s.dockers ==> Returned(R, i, s.dockers[i], r.dockers[i])
    ensures Ledger(r.dockers)
  {
    var a, b := s.dockers, r.dockers;
    forall i | i in a ensures Balanced(b.Keys, b[i]) && NamesLenders(b, b[i]) && Proper(b[i]) {
      ReturnEntry(s, r, R, i);
    }
    forall i | i in b && b[i].lended ensures FullyLent(b, i) {
      assert Returned(R, i, a[i], b[i]);
      assert FullyLent(a, i);
      forall p | p in a ensures LoansFrom(a, i)(p) == LoansFrom(b, i)(p) {
        assert Returned(R, p, a[p], b[p]);
      }
      SumSame(a.Keys, LoansFrom(a, i), LoansFrom(b, i));
    }
  }

  lemma ReturnEntry(s: State, r: State, R: seq<string>, i: string)
    requires Ledger(s.dockers) && r.dockers.Keys == s.dockers.Keys && i in s.dockers
    requires NoDup(R) && forall id :: id in R ==> id in s.dockers && s.dockers[id].lended
    requires forall i :: i in s.dockers ==> Returned(R, i, s.dockers[i], r.dockers[i])
    ensures Balanced(r.dockers.Keys, r.dockers[i]) && NamesLenders(r.dockers, r.dockers[i]) && Proper(r.dockers[i])
  {
    var K, d, e := s.dockers.Keys, s.dockers[i], r.dockers[i];
    assert Balanced(K, d) && NamesLenders(s.dockers, d) && Proper(d);
    hide Ledger;
    assert Returned(R, i, d, e);
    forall id | id in e.borrow ensures id in r.dockers && r.dockers[id].lended && e.borrow[id] >= 0.0 {
      assert id in d.borrow && id !in SetOf(R);
      assert Returned(R, id, s.dockers[id], r.dockers[id]);
    }
    ReturnBalance(K, d, e, R, i);
  }

  lemma ReturnBalance(K: set<string>, d: Docker, e: Docker, R: seq<string>, i: string)
    requires Balanced(K, d) && Returned(R, i, d, e) && NoDup(R) && (forall id :: id in R ==> id in K) && (i in R ==> d.lended)
    ensures Balanced(K, e)
  {
    OwedIsSum(d, R);
    SumSplit(K, SetOf(R), SharesOf(d));
    SumRestrict(K, K - SetOf(R), SharesOf(e));
    SumSame(K - SetOf(R), SharesOf(d), SharesOf(e));
  }

  /** A return round keeps the ledger, whatever the outcome of the update commands. */
  lemma ReturnRoundLedger(t: Topology, sel: Selector, s: State, order: seq<string>, order2: seq<string>)
    requires Sound(t, s) && Ledger(s.dockers) && Lists(order, s.dockers) && Lists(order2, s.dockers) && sel.Calm()
    requires ReturnFits(t, s, order)
    ensures Ledger(ReturnRound(t, sel, s, order, order2).dockers)
  {
    assert t.Uniform();
    RecallerFacts(t, s, order);
    ReturnRoundBooks(t, sel, s, order, order2);
    hide Sound;
    hide Ledger;
    hide Recallers;
    hide ReturnRound;
    ReturnedLedger(s, ReturnRound(t, sel, s, order, order2), Recallers(s, order));
  }
}
