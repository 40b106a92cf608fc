/** Who owes whom: the loan ledger through borrow and return rounds, and over whole runs. */
module ClusterLedger {
  import opened Seqs
  import opened Sums
  import opened Topologies
  import opened Ceilings
  import opened ClusterSelection
  import opened ClusterSpec
  import opened ClusterRounds
  import opened ClusterSteps
  import opened ClusterSound

  ghost function Lent(d: Docker): real {
    if d.lended then d.lend else 0.0
  }

  /** What d has borrowed from container id. */
  ghost function Share(d: Docker, id: string): real {
    if id in d.borrow then d.borrow[id] else 0.0
  }

  ghost function SharesOf(d: Docker): string -> real {
    id => Share(d, id)
  }

  ghost function Borrowed(K: set<string>, d: Docker): real {
    Sum(K, SharesOf(d))
  }

  /** What each container has borrowed from container id. */
  ghost function LoansFrom(dockers: map<string, Docker>, id: string): string -> real {
    p => if p in dockers then Share(dockers[p], id) else 0.0
  }

  /** The limit is the initial limit, minus what is lent out, plus what the borrow map adds up to. */
  ghost predicate Balanced(K: set<string>, d: Docker) {
    d.current == d.initial - Lent(d) + Borrowed(K, d)
  }

  /** Borrow entries are non-negative and name only containers that are lending. */
  ghost predicate NamesLenders(dockers: map<string, Docker>, d: Docker) {
    forall id :: id in d.borrow ==> id in dockers && dockers[id].lended && d.borrow[id] >= 0.0
  }

  /** The entries across all borrowers add up to what the lender gave. */
  ghost predicate FullyLent(dockers: map<string, Docker>, id: string)
    requires id in dockers
  {
    Sum(dockers.Keys, LoansFrom(dockers, id)) == dockers[id].lend
  }

  /** Lenders are bound and give at most half; unbound containers take no part. */
  ghost predicate Proper(d: Docker) {
    && (d.lended ==> d.bound && 0.0 <= d.lend <= d.initial * 0.5)
    && (d.bound ==> d.initial > 0.0)
    && (!d.bound ==> d.borrow == map[])
  }

  ghost predicate Ledger(dockers: map<string, Docker>) {
    && (forall i :: i in dockers ==> Balanced(dockers.Keys, dockers[i]))
    && (forall i :: i in dockers ==> NamesLenders(dockers, dockers[i]))
    && (forall i :: i in dockers ==> Proper(dockers[i]))
    && (forall i :: i in dockers && dockers[i].lended ==> FullyLent(dockers, i))
  }

  // ---------- Consequences ----------

  ghost function Currents(dockers: map<string, Docker>): string -> real {
    i => if i in dockers then dockers[i].current else 0.0
  }

  ghost function Initials(dockers: map<string, Docker>): string -> real {
    i => if i in dockers then dockers[i].initial else 0.0
  }

  ghost function Lents(dockers: map<string, Docker>): string -> real {
    i => if i in dockers then Lent(dockers[i]) else 0.0
  }

  /** What everybody has borrowed from a container is what it has lent. */
  lemma LoanColumn(dockers: map<string, Docker>, j: string)
    requires Ledger(dockers) && j in dockers
    ensures Sum(dockers.Keys, LoansFrom(dockers, j)) == Lent(dockers[j])
  {
    if dockers[j].lended {
      assert FullyLent(dockers, j);
    } else {
      forall p | p in dockers ensures LoansFrom(dockers, j)(p) == 0.0 {
        assert NamesLenders(dockers, dockers[p]);
      }
      SumRestrict(dockers.Keys, {}, LoansFrom(dockers, j));
    }
  }

  /** What container i has borrowed from each container. */
  ghost function LoansTo(dockers: map<string, Docker>, i: string): string -> real {
    j => if i in dockers then Share(dockers[i], j) else 0.0
  }

  /** All loans taken add up to all loans given. */
  lemma LoansMeet(dockers: map<string, Docker>, taken: string -> real)
    requires Ledger(dockers)
    requires forall i :: i in dockers ==> taken(i) == Borrowed(dockers.Keys, dockers[i])
    ensures Sum(dockers.Keys, taken) == Sum(dockers.Keys, Lents(dockers))
  {
    hide Ledger;
    var K := dockers.Keys;
    forall i | i in K ensures taken(i) == Sum(K, LoansTo(dockers, i)) {
      SumSame(K, LoansTo(dockers, i), SharesOf(dockers[i]));
    }
    forall j | j in K ensures Lents(dockers)(j) == Sum(K, LoansFrom(dockers, j)) {
      LoanColumn(dockers, j);
    }
    SumSwap(K, K, i => LoansTo(dockers, i), j => LoansFrom(dockers, j), taken, Lents(dockers));
  }

  /** The total limit is conserved. */
  lemma TotalConserved(dockers: map<string, Docker>)
    requires Ledger(dockers)
    ensures Sum(dockers.Keys, Currents(dockers)) == Sum(dockers.Keys, Initials(dockers))
  {
    var K := dockers.Keys;
    var taken := i => if i in dockers then Borrowed(K, dockers[i]) else 0.0;
    LoansMeet(dockers, taken);
    var both := i => Initials(dockers)(i) + taken(i);
    forall i | i in K ensures both(i) == Currents(dockers)(i) + Lents(dockers)(i) {
      assert Balanced(K, dockers[i]);
    }
    SumPlus(K, Initials(dockers), taken, both);
    SumPlus(K, Currents(dockers), Lents(dockers), both);
  }

  /** Once nobody lends, every borrow map is empty and everyone is back at the initial limit. */
  lemma AllReturned(dockers: map<string, Docker>, i: string)
    requires Ledger(dockers) && i in dockers
    requires forall j :: j in dockers ==> !dockers[j].lended
    ensures dockers[i].borrow == map[] && dockers[i].current == dockers[i].initial
  {
    var d := dockers[i];
    assert NamesLenders(dockers, d) && Balanced(dockers.Keys, d);
    assert forall j :: j !in d.borrow;
    SumRestrict(dockers.Keys, {}, SharesOf(d));
  }

  /** A bound container never falls below half its initial limit. */
  lemma LimitFloor(dockers: map<string, Docker>, i: string)
    requires Ledger(dockers) && i in dockers
    ensures var d := dockers[i]; Borrowed(dockers.Keys, d) >= 0.0 && (d.bound ==> d.current >= d.initial * 0.5 > 0.0)
  {
    var d := dockers[i];
    assert NamesLenders(dockers, d) && Balanced(dockers.Keys, d) && Proper(d);
    SumNonNegative(dockers.Keys, SharesOf(d));
  }

  /** Half load or less means that exactly half of the initial limit is offered. */
  lemma OfferIsHalf(d: Docker)
    requires CanLend(d)
    ensures Offer(d) == d.initial * 0.5
  {
  }

  // ---------- The ledger depends on the books only ----------

  lemma LedgerOfBooks(a: map<string, Docker>, b: map<string, Docker>)
    requires a.Keys == b.Keys && forall i :: i in a ==> Book(a[i]) == Book(b[i])
    ensures Ledger(a) <==> Ledger(b)
  {
    LedgerOfBooks1(a, b);
    LedgerOfBooks1(b, a);
  }

  lemma LedgerOfBooks1(a: map<string, Docker>, b: map<string, Docker>)
    requires a.Keys == b.Keys && forall i :: i in a ==> Book(a[i]) == Book(b[i])
    ensures Ledger(a) ==> Ledger(b)
  {
    if Ledger(a) {
      forall i | i in a
        ensures Balanced(b.Keys, b[i]) && NamesLenders(b, b[i]) && Proper(b[i])
      {
        BookFields(a[i], b[i]);
        assert Balanced(a.Keys, a[i]) && NamesLenders(a, a[i]) && Proper(a[i]);
        SumSame(a.Keys, SharesOf(a[i]), SharesOf(b[i]));
        forall id | id in b[i].borrow ensures id in b && b[id].lended {
          BookFields(a[id], b[id]);
        }
      }
      forall i | i in b && b[i].lended ensures FullyLent(b, i) {
        BookFields(a[i], b[i]);
        assert FullyLent(a, i);
        forall p | p in a ensures LoansFrom(a, i)(p) == LoansFrom(b, i)(p) {
          BookFields(a[p], b[p]);
        }
        SumSame(a.Keys, LoansFrom(a, i), LoansFrom(b, i));
      }
    }
  }

  // ---------- The effect of a borrow round on the books ----------

  /** order lists every container once. */
  ghost predicate Lists(order: seq<string>, dockers: map<string, Docker>) {
    NoDup(order) && forall id :: id in order <==> id in dockers
  }

  lemma {:induction false} LendersOnce(s: State, order: seq<string>)
    requires NoDup(order) && forall id :: id in order ==> id in s.dockers
    ensures NoDup(Lenders(s, order))
  {
    if |order| > 0 {
      InitMembers(order);
      LendersOnce(s, Init(order));
      NoDupAppend(Lenders(s, Init(order)), [Last(order)]);
    }
  }

  lemma {:induction false} BorrowersOnce(s: State, order: seq<string>, lenders: seq<string>)
    requires NoDup(order) && forall id :: id in order ==> id in s.dockers
    ensures NoDup(Borrowers(s, order, lenders))
  {
    if |order| > 0 {
      InitMembers(order);
      BorrowersOnce(s, Init(order), lenders);
      NoDupAppend(Borrowers(s, Init(order), lenders), [Last(order)]);
    }
  }

  lemma {:induction false} RecallersOnce(s: State, order: seq<string>)
    requires NoDup(order) && forall id :: id in order ==> id in s.dockers
    ensures NoDup(Recallers(s, order))
  {
    if |order| > 0 {
      InitMembers(order);
      RecallersOnce(s, Init(order));
      NoDupAppend(Recallers(s, Init(order)), [Last(order)]);
    }
  }

  lemma {:induction false} TotalOfferIsSum(s: State, lenders: seq<string>)
    requires NoDup(lenders) && forall id :: id in lenders ==> id in s.dockers
    ensures TotalOffer(s, lenders) == Sum(SetOf(lenders), LendOf(s))
  {
    if |lenders| > 0 {
      InitMembers(lenders);
      TotalOfferIsSum(s, Init(lenders));
      assert SetOf(lenders) == SetOf(Init(lenders)) + {Last(lenders)};
      SumAdd(SetOf(Init(lenders)), LendOf(s), Last(lenders));
    }
  }

  lemma {:induction false} OwedIsSum(d: Docker, lenders: seq<string>)
    requires NoDup(lenders)
    ensures Owed(d.borrow, lenders) == Sum(SetOf(lenders), SharesOf(d))
    ensures !Owes(d.borrow, lenders) ==> Owed(d.borrow, lenders) == 0.0
  {
    if |lenders| > 0 {
      InitMembers(lenders);
      OwedIsSum(d, Init(lenders));
      assert SetOf(lenders) == SetOf(Init(lenders)) + {Last(lenders)};
      SumAdd(SetOf(Init(lenders)), SharesOf(d), Last(lenders));
      assert Last(lenders) in lenders;
      if !Owes(d.borrow, lenders) {
        assert !Owes(d.borrow, Init(lenders));
      }
    }
  }

  /** Lenders and busy containers take part in a borrow round; all of them must be bound. */
  ghost predicate Participants(s: State) {
    forall id :: id in s.dockers && (CanLend(s.dockers[id]) || NeedsMore(s.dockers[id])) ==> s.dockers[id].bound
  }

  /** Everything a borrow round decides before it changes a limit. */
  datatype Plan = Plan(lenders: seq<string>, offered: State, borrowers: seq<string>, total: real) {
    predicate Quiet() {
      total < 0.01 || |borrowers| == 0
    }

    function Limit(): real
      requires |borrowers| > 0
    {
      total / |borrowers| as real
    }
  }

  function PlanOf(s: State, order: seq<string>): (p: Plan)
    requires forall id :: id in order ==> id in s.dockers
    ensures p.offered.dockers.Keys == s.dockers.Keys
    ensures forall id :: id in p.lenders || id in p.borrowers ==> id in s.dockers
  {
    var lenders := Lenders(s, order);
    var o := Offered(s, lenders);
    Plan(lenders, o, Borrowers(o, order, lenders), TotalOffer(o, lenders))
  }

  /** Enough free clusters on every node for all the shares, checked before the round. */
  ghost predicate BorrowFits(t: Topology, s: State, order: seq<string>)
    requires t.Uniform() && forall id :: id in order ==> id in s.dockers
  {
    var p := PlanOf(s, order);
    !p.Quiet() ==> Fits(t, p.offered, p.borrowers, Always(p.Limit()))
  }

  lemma OfferedSound(t: Topology, s: State, lenders: seq<string>)
    requires Sound(t, s) && forall id :: id in lenders ==> id in s.dockers
    ensures Sound(t, Offered(s, lenders)) && BoundIds(Offered(s, lenders)) == BoundIds(s)
  {
    hide Sound;
    BookKeeps(t, s, Offered(s, lenders));
  }

  /** What PlanOf says about each container. */
  lemma PlanFacts(s: State, order: seq<string>)
    requires Lists(order, s.dockers) && Ledger(s.dockers) && Participants(s)
    ensures var p := PlanOf(s, order);
            && NoDup(p.lenders) && NoDup(p.borrowers)
            && (forall id :: id in p.lenders ==> id !in p.borrowers)
            && (forall id :: id in p.lenders || id in p.borrowers ==> id in s.dockers && s.dockers[id].bound)
            && (forall id :: id in p.lenders ==> var d := p.offered.dockers[id];
                 !d.lended && d.borrow == map[] && d.current == d.initial && d.lend == d.initial * 0.5 > 0.0)
            && p.total == Sum(SetOf(p.lenders), LendOf(p.offered)) >= 0.0
  {
    var p := PlanOf(s, order);
    var o := p.offered;
    LendersOnce(s, order);
    BorrowersOnce(o, order, p.lenders);
    forall id | id in p.lenders
      ensures var d := o.dockers[id]; !d.lended && d.borrow == map[] && d.current == d.initial && d.lend == d.initial * 0.5 > 0.0
      ensures s.dockers[id].bound
    {
      var d := s.dockers[id];
      OfferIsHalf(d);
      assert Balanced(s.dockers.Keys, d) && Proper(d);
      SumRestrict(s.dockers.Keys, {}, SharesOf(d));
    }
    forall id | id in p.borrowers ensures s.dockers[id].bound {
      assert NeedsMore(o.dockers[id]) && NeedsMore(s.dockers[id]);
    }
    TotalOfferIsSum(o, p.lenders);
    SumNonNegative(SetOf(p.lenders), LendOf(o));
  }

  /** A container's books after a borrow round. */
  ghost function BorrowBook(p: Plan, failed: set<string>, i: string): Docker
    requires i in p.offered.dockers && forall id :: id in p.lenders ==> id in p.offered.dockers
  {
    var d := p.offered.dockers[i];
    if p.Quiet() then Book(d)
    else if i in p.borrowers then AfterBorrow(d, p.Limit(), Shares(p.offered, p.lenders, |p.borrowers|))
    else if i in p.lenders then AfterLend(d, i !in failed)
    else Book(d)
  }

  /** The offers change no placement, and everybody in the plan is bound. */
  lemma PlanReady(t: Topology, s: State, order: seq<string>)
    requires Sound(t, s) && Ledger(s.dockers) && Lists(order, s.dockers) && Participants(s)
    ensures var p := PlanOf(s, order);
            && Sound(t, p.offered)
            && (forall id :: id in p.lenders || id in p.borrowers ==> id in BoundIds(p.offered))
            && (!p.Quiet() ==> p.Limit() >= 0.0)
  {
    var p := PlanOf(s, order);
    hide Sound;
    hide Ledger;
    PlanFacts(s, order);
    OfferedSound(t, s, p.lenders);
    assert BoundIds(p.offered) == BoundIds(s);
    if !p.Quiet() {
      QuotientSign(p.total, |p.borrowers| as real);
    }
  }

  lemma QuotientSign(x: real, n: real)
    requires x >= 0.0 && n > 0.0
    ensures x / n >= 0.0
  {
  }

  /** The turns of an active round, from what its plan guarantees. */
  lemma ActiveRound(t: Topology, sel: Selector, p: Plan, failed: set<string>)
    requires Sound(t, p.offered) && sel.Calm() && |p.borrowers| > 0 && p.Limit() >= 0.0
    requires NoDup(p.lenders) && NoDup(p.borrowers) && forall id :: id in p.lenders ==> id !in p.borrowers
    requires forall id :: id in p.lenders || id in p.borrowers ==> id in BoundIds(p.offered)
    requires forall id :: id in p.lenders ==> 0.0 <= p.offered.dockers[id].lend <= p.offered.dockers[id].current
    requires Fits(t, p.offered, p.borrowers, Always(p.Limit())) && !p.Quiet()
    ensures var m := BorrowAll(t, sel, p.offered, p.borrowers, p.Limit(), Shares(p.offered, p.lenders, |p.borrowers|));
            var r := LendAll(m, p.lenders, failed);
            && Sound(t, r)
            && forall i :: i in p.offered.dockers ==> Book(r.dockers[i]) == BorrowBook(p, failed, i)
  {
    assert t.Uniform();
    hide Sound;
    var o, shares := p.offered, Shares(p.offered, p.lenders, |p.borrowers|);
    BorrowAllKeeps(t, sel, o, p.borrowers, p.Limit(), shares);
    var m := BorrowAll(t, sel, o, p.borrowers, p.Limit(), shares);
    assert forall id :: id in p.lenders ==> m.dockers[id] == o.dockers[id];
    LendAllKeeps(t, m, p.lenders, failed);
    var r := LendAll(m, p.lenders, failed);
    hide Book;
    hide AfterBorrow;
    hide AfterLend;
    forall i | i in o.dockers ensures Book(r.dockers[i]) == BorrowBook(p, failed, i) {
      if i in p.borrowers {
        assert i !in p.lenders && r.dockers[i] == m.dockers[i];
      } else {
        assert m.dockers[i] == o.dockers[i];
      }
    }
  }

  /** A borrow round keeps the state sound and changes the books as planned. */
  lemma BorrowRoundBooks(t: Topology, sel: Selector, s: State, order: seq<string>, failed: set<string>)
    requires Sound(t, s) && Ledger(s.dockers) && Lists(order, s.dockers) && Participants(s) && sel.Calm()
    requires BorrowFits(t, s, order)
    ensures var r := BorrowRound(t, sel, s, order, failed);
            && Sound(t, r)
            && forall i :: i in s.dockers ==> Book(r.dockers[i]) == BorrowBook(PlanOf(s, order), failed, i)
  {
    var p := PlanOf(s, order);
    PlanFacts(s, order);
    PlanReady(t, s, order);
    RoundIsPlan(t, sel, s, order, failed);
    assert BorrowFits(t, s, order) && t.Uniform();
    hide Sound;
    hide Ledger;
    hide PlanOf;
    hide BorrowRound;
    if !p.Quiet() {
      ActiveRound(t, sel, p, failed);
    }
  }

  lemma RoundIsPlan(t: Topology, sel: Selector, s: State, order: seq<string>, failed: set<string>)
    requires t.Uniform() && forall id :: id in order ==> id in s.dockers
    ensures var p := PlanOf(s, order);
            BorrowRound(t, sel, s, order, failed) ==
              if p.Quiet() then p.offered
              else LendAll(BorrowAll(t, sel, p.offered, p.borrowers, p.Limit(), Shares(p.offered, p.lenders, |p.borrowers|)),
                           p.lenders, failed)
  {
  }

  // ---------- The ledger through a borrow round ----------

  /** Recording an offer does not touch the ledger. */
  lemma OfferedLedger(s: State, lenders: seq<string>)
    requires Ledger(s.dockers) && forall id :: id in lenders ==> id in s.dockers && !s.dockers[id].lended
    ensures Ledger(Offered(s, lenders).dockers)
  {
    var a, b := s.dockers, Offered(s, lenders).dockers;
    forall i | i in a ensures Balanced(b.Keys, b[i]) && NamesLenders(b, b[i]) && Proper(b[i]) {
      OfferedEntry(s, lenders, i);
    }
    forall i | i in b && b[i].lended ensures FullyLent(b, i) {
      assert FullyLent(a, i);
      SumSame(a.Keys, LoansFrom(a, i), LoansFrom(b, i));
    }
  }

  lemma OfferedEntry(s: State, lenders: seq<string>, i: string)
    requires Ledger(s.dockers) && i in s.dockers && forall id :: id in lenders ==> id in s.dockers && !s.dockers[id].lended
    ensures var b := Offered(s, lenders).dockers; Balanced(b.Keys, b[i]) && NamesLenders(b, b[i]) && Proper(b[i])
  {
    var a, b := s.dockers, Offered(s, lenders).dockers;
    assert Balanced(a.Keys, a[i]) && NamesLenders(a, a[i]) && Proper(a[i]);
    hide Ledger;
    SumSame(a.Keys, SharesOf(a[i]), SharesOf(b[i]));
  }

  /** What is known of a plan that changes limits. */
  ghost predicate Active(p: Plan) {
    && Ledger(p.offered.dockers) && |p.borrowers| > 0 && !p.Quiet()
    && NoDup(p.lenders) && NoDup(p.borrowers)
    && (forall id :: id in p.lenders ==> id !in p.borrowers)
    && (forall id :: id in p.lenders || id in p.borrowers ==> id in p.offered.dockers && p.offered.dockers[id].bound)
    && (forall id :: id in p.lenders ==> var d := p.offered.dockers[id];
         !d.lended && d.borrow == map[] && d.current == d.initial && d.lend == d.initial * 0.5 > 0.0)
    && p.total == Sum(SetOf(p.lenders), LendOf(p.offered))
  }

  ghost function SharesMap(p: Plan): map<string, real>
    requires Active(p)
  {
    Shares(p.offered, p.lenders, |p.borrowers|)
  }

  ghost function BooksAfter(p: Plan, failed: set<string>): (b: map<string, Docker>)
    requires Active(p)
    ensures b.Keys == p.offered.dockers.Keys
  {
    map i | i in p.offered.dockers :: BorrowBook(p, failed, i)
  }

  /** The fields of one container's books after the round. */
  lemma BookAfter(p: Plan, failed: set<string>, i: string)
    requires Active(p) && i in p.offered.dockers
    ensures var d, e := p.offered.dockers[i], BooksAfter(p, failed)[i];
            && e.bound == d.bound && e.initial == d.initial && e.lend == d.lend
            && e.borrow == (if i in p.borrowers then d.borrow + SharesMap(p) else d.borrow)
            && e.lended == (if i in p.lenders then i !in failed else d.lended)
            && e.current == d.current + (if i in p.borrowers then p.Limit() else if i in p.lenders then -d.lend else 0.0)
  {
    hide Ledger;
  }

  /** The shares of one borrower add up to what its limit gained. */
  lemma SharesAddUp(p: Plan, taken: string -> real)
    requires Active(p)
    requires forall id :: taken(id) == if id in SharesMap(p) then SharesMap(p)[id] else 0.0
    ensures Sum(p.offered.dockers.Keys, taken) == p.Limit()
  {
    hide Ledger;
    var L := SetOf(p.lenders);
    SumRestrict(p.offered.dockers.Keys, L, taken);
    SumDivide(L, LendOf(p.offered), |p.borrowers| as real, taken);
  }

  /** A borrower's map gains the shares, and nothing in it is overwritten. */
  lemma BorrowerBalanced(p: Plan, failed: set<string>, i: string)
    requires Active(p) && i in p.borrowers
    ensures Balanced(p.offered.dockers.Keys, BooksAfter(p, failed)[i])
  {
    var o, d, e := p.offered.dockers, p.offered.dockers[i], BooksAfter(p, failed)[i];
    BookAfter(p, failed, i);
    var taken := (id: string) => if id in SharesMap(p) then SharesMap(p)[id] else 0.0;
    SharesAddUp(p, taken);
    assert Balanced(o.Keys, d) && NamesLenders(o, d);
    assert e.borrow == d.borrow + SharesMap(p);
    forall id ensures SharesOf(e)(id) == SharesOf(d)(id) + taken(id) {
      if id in p.lenders { assert id !in d.borrow; }
    }
    SumPlus(o.Keys, SharesOf(d), taken, SharesOf(e));
  }

  /** Each borrower took an equal part from a new lender, and nobody else owes it anything. */
  lemma EqualParts(p: Plan, failed: set<string>, id: string, q: string)
    requires Active(p) && id in p.lenders && q in p.offered.dockers
    ensures LoansFrom(BooksAfter(p, failed), id)(q) ==
            if q in p.borrowers then p.offered.dockers[id].lend / |p.borrowers| as real else 0.0
  {
    BookAfter(p, failed, q);
    NotYetOwed(p, q, id);
    hide Ledger;
    hide BooksAfter;
  }

  /** A new lender's loans: together the borrowers got all of what it gave. */
  lemma LenderFullyLent(p: Plan, failed: set<string>, id: string)
    requires Active(p) && id in p.lenders
    ensures Sum(p.offered.dockers.Keys, LoansFrom(BooksAfter(p, failed), id)) == p.offered.dockers[id].lend
  {
    hide Ledger;
    var K, f, B := p.offered.dockers.Keys, LoansFrom(BooksAfter(p, failed), id), SetOf(p.borrowers);
    SetOfSize(p.borrowers);
    forall q | q in K ensures f(q) == if q in B then p.offered.dockers[id].lend / |p.borrowers| as real else 0.0 {
      EqualParts(p, failed, id, q);
    }
    assert B <= K;
    ConstantPart(K, B, f, |p.borrowers|, p.offered.dockers[id].lend);
  }

  lemma ConstantPart(K: set<string>, B: set<string>, f: string -> real, n: nat, lend: real)
    requires B <= K && |B| == n > 0
    requires forall q :: q in K ==> f(q) == if q in B then lend / n as real else 0.0
    ensures Sum(K, f) == lend
  {
    SumConst(K, B, f, lend / n as real);
    RepeatIsProduct(n, lend / n as real);
    TimesQuotient(n as real, lend);
  }

  lemma TimesQuotient(n: real, x: real)
    requires n != 0.0
    ensures n * (x / n) == x
  {
  }

  /** Nobody owes a container that is about to lend. */
  lemma NotYetOwed(p: Plan, q: string, id: string)
    requires Active(p) && q in p.offered.dockers && id in p.lenders
    ensures id !in p.offered.dockers[q].borrow
  {
    assert NamesLenders(p.offered.dockers, p.offered.dockers[q]);
  }

  /** Older loans are untouched. */
  lemma OlderLoans(p: Plan, failed: set<string>, id: string)
    requires Active(p) && id in p.offered.dockers && p.offered.dockers[id].lended
    ensures Sum(p.offered.dockers.Keys, LoansFrom(BooksAfter(p, failed), id)) == p.offered.dockers[id].lend
    ensures BooksAfter(p, failed)[id].lend == p.offered.dockers[id].lend
  {
    var o, b := p.offered.dockers, BooksAfter(p, failed);
    assert id !in p.lenders && id !in SharesMap(p);
    assert FullyLent(o, id);
    forall q | q in o.Keys ensures LoansFrom(o, id)(q) == LoansFrom(b, id)(q) {
      BookAfter(p, failed, q);
    }
    BookAfter(p, failed, id);
    hide Active;
    hide BooksAfter;
    SumSame(o.Keys, LoansFrom(o, id), LoansFrom(b, id));
  }

  lemma ActiveEntry(p: Plan, failed: set<string>, i: string)
    requires Active(p) && i in p.offered.dockers && forall id :: id in p.lenders ==> id !in failed
    ensures var b := BooksAfter(p, failed); Balanced(b.Keys, b[i]) && NamesLenders(b, b[i]) && Proper(b[i])
  {
    var o, b := p.offered.dockers, BooksAfter(p, failed);
    BookAfter(p, failed, i);
    assert Balanced(o.Keys, o[i]) && NamesLenders(o, o[i]) && Proper(o[i]);
    hide Ledger;
    hide BooksAfter;
    forall id | id in b[i].borrow ensures id in b && b[id].lended && b[i].borrow[id] >= 0.0 {
      assert id in SharesMap(p) || id in o[i].borrow;
      BookAfter(p, failed, id);
      QuotientSign(if id in p.lenders then o[id].lend else 0.0, |p.borrowers| as real);
    }
    if i in p.borrowers {
      BorrowerBalanced(p, failed, i);
    } else {
      SumSame(o.Keys, SharesOf(o[i]), SharesOf(b[i]));
    }
  }

  /** The books after an active round satisfy the ledger exactly when no lender's command failed. */
  lemma ActiveLedger(p: Plan, failed: set<string>)
    requires Active(p)
    ensures Ledger(BooksAfter(p, failed)) <==> forall id :: id in p.lenders ==> id !in failed
  {
    var o, b := p.offered.dockers, BooksAfter(p, failed);
    assert b.Keys == o.Keys;
    if forall id :: id in p.lenders ==> id !in failed {
      forall i | i in b ensures Balanced(b.Keys, b[i]) && NamesLenders(b, b[i]) && Proper(b[i]) {
        ActiveEntry(p, failed, i);
      }
      forall i | i in b && b[i].lended ensures FullyLent(b, i) {
        ActiveColumn(p, failed, i);
      }
    } else {
      var id :| id in p.lenders && id in failed;
      ActiveBroken(p, failed, id);
    }
  }

  lemma ActiveColumn(p: Plan, failed: set<string>, i: string)
    requires Active(p) && i in p.offered.dockers && BooksAfter(p, failed)[i].lended
    ensures FullyLent(BooksAfter(p, failed), i)
  {
    hide Ledger;
    BookAfter(p, failed, i);
    if i in p.lenders {
      LenderFullyLent(p, failed, i);
    } else {
      OlderLoans(p, failed, i);
    }
  }

  /** A failed lender is named by its borrowers although it is not marked as lending. */
  lemma ActiveBroken(p: Plan, failed: set<string>, id: string)
    requires Active(p) && id in p.lenders && id in failed
    ensures !Ledger(BooksAfter(p, failed))
  {
    var b, q := BooksAfter(p, failed), p.borrowers[0];
    assert q in p.borrowers;
    BookAfter(p, failed, q);
    BookAfter(p, failed, id);
    assert id in b[q].borrow && !b[id].lended;
    assert !NamesLenders(b, b[q]);
  }

  lemma PlanActive(s: State, order: seq<string>)
    requires Lists(order, s.dockers) && Ledger(s.dockers) && Participants(s) && !PlanOf(s, order).Quiet()
    ensures Active(PlanOf(s, order))
  {
    hide Ledger;
    var p := PlanOf(s, order);
    PlanFacts(s, order);
    assert forall id :: id in p.lenders ==> !s.dockers[id].lended;
    OfferedLedger(s, p.lenders);
  }

  lemma BooksOfBooks(p: Plan, failed: set<string>, r: map<string, Docker>)
    requires Active(p) && r.Keys == p.offered.dockers.Keys
    requires forall i :: i in r ==> Book(r[i]) == BorrowBook(p, failed, i)
    ensures Ledger(r) <==> Ledger(BooksAfter(p, failed))
  {
    hide Ledger;
    forall i | i in r ensures Book(r[i]) == Book(BooksAfter(p, failed)[i]) {
    }
    LedgerOfBooks(r, BooksAfter(p, failed));
  }

  /** A borrow round keeps the ledger exactly when it changes nothing or every lender's command succeeds. */
  lemma BorrowRoundLedger(t: Topology, sel: Selector, s: State, order: seq<string>, failed: set<string>)
    requires Sound(t, s) && Ledger(s.dockers) && Lists(order, s.dockers) && Participants(s) && sel.Calm()
    requires BorrowFits(t, s, order)
    ensures var p := PlanOf(s, order);
            Ledger(BorrowRound(t, sel, s, order, failed).dockers) <==> p.Quiet() || forall id :: id in p.lenders ==> id !in failed
  {
    var p, r := PlanOf(s, order), BorrowRound(t, sel, s, order, failed);
    BorrowRoundBooks(t, sel, s, order, failed);
    PlanFacts(s, order);
    OfferedLedger(s, p.lenders);
    assert t.Uniform();
    hide Sound;
    hide BorrowRound;
    hide Lists;
    if p.Quiet() {
      LedgerOfBooks(r.dockers, p.offered.dockers);
    } else {
      PlanActive(s, order);
      ActiveLedger(p, failed);
      hide Ledger;
      BooksOfBooks(p, failed, r.dockers);
    }
  }
}
