/**
 * Who lends, who borrows and who is called back, said of the recorded samples: the window of every container holds its
 * last thirty samples in every reachable state.
 */
module ClusterMeaning {
  import opened Seqs
  import opened Sums
  import opened Topologies
  import opened ClusterSelection
  import opened ClusterSpec
  import opened ClusterRounds
  import opened ClusterSound
  import opened ClusterLedger
  import opened ClusterReturns
  import opened ClusterBinding
  import opened ClusterRuns

  // ---------- Samples ----------

  ghost function SumOf(xs: seq<real>): real {
    if |xs| == 0 then 0.0 else SumOf(Init(xs)) + Last(xs)
  }

  function LastThirty(all: seq<real>): seq<real> {
    if |all| <= 30 then all else all[|all| - 30..]
  }

  lemma {:induction false} SumOfTail(xs: seq<real>)
    requires |xs| > 0
    ensures SumOf(xs) == xs[0] + SumOf(xs[1..])
    decreases |xs|
  {
    if |xs| > 1 {
      SumOfTail(Init(xs));
      assert Init(xs)[1..] == Init(xs[1..]) && Last(xs[1..]) == Last(xs);
    }
  }

  /** The container's window holds the last thirty of `all` its samples, and their sum. */
  ghost predicate Recent(d: Docker, all: seq<real>) {
    |all| > 0 && d.usage == LastThirty(all) && d.usageSum == SumOf(d.usage)
  }

  /** One more sample. */
  lemma PushIsRecent(d: Docker, all: seq<real>, x: real)
    requires Recent(d, all) || (all == [] && d.usage == [] && d.usageSum == 0.0)
    ensures Recent(Push(d, x), all + [x]) && Push(d, x).(usage := d.usage, usageSum := d.usageSum) == d
  {
    var q := d.usage + [x];
    assert Init(q) == d.usage && Last(q) == x && SumOf(q) == SumOf(d.usage) + x;
    SumOfTail(q);
    assert LastThirty(all + [x]) == if |q| > 30 then q[1..] else q;
  }

  /** The samples of container id among the steps. */
  ghost function SamplesOf(steps: seq<Step>, id: string): seq<real> {
    if |steps| == 0 then []
    else (if steps[0].Observe? && steps[0].id == id then [steps[0].x] else []) + SamplesOf(steps[1..], id)
  }

  ghost predicate RecentAt(s: State, i: string, all: seq<real>) {
    if i in s.dockers then Recent(s.dockers[i], all) else all == []
  }

  /** The two states have recorded the same samples. */
  ghost predicate SameUsage(s: State, r: State) {
    r.dockers.Keys == s.dockers.Keys &&
    forall i :: i in s.dockers ==> r.dockers[i].usage == s.dockers[i].usage && r.dockers[i].usageSum == s.dockers[i].usageSum
  }

  ghost function Book0(d: Docker): Docker {
    Book(d).(bound := false)
  }

  lemma SameBook(d: Docker, e: Docker)
    requires Book0(d) == Book0(e)
    ensures d.usage == e.usage && d.usageSum == e.usageSum
  {
    assert Book0(d).usage == d.usage && Book0(e).usage == e.usage;
    assert Book0(d).usageSum == d.usageSum && Book0(e).usageSum == e.usageSum;
  }

  lemma OutcomeUsage(s: State, g: State, r: State, failed: set<string>)
    requires Outcome(s, g, r, failed) && forall i :: i in s.dockers ==> BoundMore(s.dockers[i], g.dockers[i])
    ensures SameUsage(s, r)
  {
    forall i | i in s.dockers ensures r.dockers[i].usage == s.dockers[i].usage && r.dockers[i].usageSum == s.dockers[i].usageSum {
      assert BoundMore(s.dockers[i], g.dockers[i]);
      SameBook(s.dockers[i], g.dockers[i]);
      assert r.dockers[i] == Resulting(s.dockers[i], g.dockers[i], i in failed);
    }
  }

  lemma BindUsage(t: Topology, sel: Selector, s: State, order: seq<string>, home: map<string, int>, failed: set<string>)
    requires Good(t, s) && Possible(t, s, Bind(sel, order, home, failed))
    ensures SameUsage(s, BindAll(t, sel, s, order, home, failed).state)
  {
    hide Sound;
    hide Ledger;
    hide BindAll;
    hide Outcome;
    hide BoundMore;
    hide SameUsage;
    BindPossible(t, sel, s, order, home, failed);
    StartSound(t, sel, s, order, home);
    RoundOutcome(t, sel, s, order, home, failed);
    BindAllKeeps(t, sel, s, order, home);
    OutcomeUsage(s, BindAll(t, sel, s, order, home, {}).state, BindAll(t, sel, s, order, home, failed).state, failed);
  }

  /** The books of a borrow round. */
  ghost predicate Lent(p: Plan, failed: set<string>, r: State) {
    && r.dockers.Keys == p.offered.dockers.Keys && (forall id :: id in p.lenders ==> id in p.offered.dockers)
    && forall i :: i in r.dockers ==> Book(r.dockers[i]) == BorrowBook(p, failed, i)
  }

  lemma BorrowBooks(t: Topology, sel: Selector, s: State, order: seq<string>, failed: set<string>)
    requires Good(t, s) && Possible(t, s, Borrow(sel, order, failed))
    ensures t.Uniform() && Lists(order, s.dockers) && Participants(s) && Lent(PlanOf(s, order), failed, BorrowRound(t, sel, s, order, failed))
  {
    hide Sound;
    hide Ledger;
    hide BorrowRound;
    hide PlanOf;
    hide BorrowBook;
    hide BorrowFits;
    BorrowRoundBooks(t, sel, s, order, failed);
  }

  lemma PlanUsage(s: State, order: seq<string>, p: Plan, failed: set<string>, r: State)
    requires Lists(order, s.dockers) && p == PlanOf(s, order) && Lent(p, failed, r)
    ensures SameUsage(s, r)
  {
    forall i | i in s.dockers ensures r.dockers[i].usage == s.dockers[i].usage && r.dockers[i].usageSum == s.dockers[i].usageSum {
      var e := r.dockers[i];
      assert Book(e) == BorrowBook(p, failed, i);
      assert Book(e).usage == e.usage && Book(e).usageSum == e.usageSum;
      var d := p.offered.dockers[i];
      assert d.usage == s.dockers[i].usage && d.usageSum == s.dockers[i].usageSum;
    }
  }

  lemma BorrowUsage(t: Topology, sel: Selector, s: State, order: seq<string>, failed: set<string>)
    requires Good(t, s) && Possible(t, s, Borrow(sel, order, failed))
    ensures SameUsage(s, BorrowRound(t, sel, s, order, failed))
  {
    hide *;
    BorrowBooks(t, sel, s, order, failed);
    OrderKnown(order, s);
    PlanUsage(s, order, PlanOf(s, order), failed, BorrowRound(t, sel, s, order, failed));
  }

  lemma OrderKnown(order: seq<string>, s: State)
    requires Lists(order, s.dockers)
    ensures forall id :: id in order ==> id in s.dockers
  {
  }

  /** The books of a return round. */
  ghost predicate Recalled(s: State, R: seq<string>, r: State) {
    r.dockers.Keys == s.dockers.Keys && forall i :: i in s.dockers ==> Returned(R, i, s.dockers[i], r.dockers[i])
  }

  lemma ReturnBooks(t: Topology, sel: Selector, s: State, order: seq<string>, order2: seq<string>)
    requires Good(t, s) && Possible(t, s, Return(sel, order, order2))
    ensures t.Uniform() && Lists(order, s.dockers) && Lists(order2, s.dockers) && Recalled(s, Recallers(s, order), ReturnRound(t, sel, s, order, order2))
  {
    hide Sound;
    hide Ledger;
    hide ReturnRound;
    hide Recallers;
    hide ReturnFits;
    hide Returned;
    ReturnRoundBooks(t, sel, s, order, order2);
  }

  lemma RecalledUsage(s: State, R: seq<string>, r: State)
    requires Recalled(s, R, r)
    ensures SameUsage(s, r)
  {
    forall i | i in s.dockers ensures r.dockers[i].usage == s.dockers[i].usage && r.dockers[i].usageSum == s.dockers[i].usageSum {
      assert Returned(R, i, s.dockers[i], r.dockers[i]);
    }
  }

  lemma ReturnUsage(t: Topology, sel: Selector, s: State, order: seq<string>, order2: seq<string>)
    requires Good(t, s) && Possible(t, s, Return(sel, order, order2))
    ensures SameUsage(s, ReturnRound(t, sel, s, order, order2))
  {
    hide *;
    ReturnBooks(t, sel, s, order, order2);
    OrderKnown(order, s);
    OrderKnown(order2, s);
    RecalledUsage(s, Recallers(s, order), ReturnRound(t, sel, s, order, order2));
  }

  /** A step records the sample it brings, and no round touches the samples. */
  lemma NextRecent(t: Topology, s: State, step: Step, i: string, past: seq<real>)
    requires Good(t, s) && Possible(t, s, step) && RecentAt(s, i, past)
    ensures RecentAt(Next(t, s, step), i, past + SamplesOf([step], i))
  {
    hide Recent;
    hide Good;
    hide BindAll;
    hide BorrowRound;
    hide ReturnRound;
    assert SamplesOf([step], i) == if step.Observe? && step.id == i then [step.x] else [] by {
      assert [step][1..] == [];
    }
    assert past + [] == past;
    match step
    case Observe(id, initial, cpus, mems, x) =>
      var d := if id in s.dockers then s.dockers[id]
               else Docker(false, false, [], 0.0, cpus, mems, [], map[], initial, 0.0, initial);
      if id == i {
        PushIsRecent(d, past, x);
      }
      hide Push;
      assert Sample(s, id, initial, cpus, mems, x).dockers == s.dockers[id := Push(d, x)];
    case Bind(sel, order, home, failed) =>
      BindUsage(t, sel, s, order, home, failed);
      StillRecent(s, BindAll(t, sel, s, order, home, failed).state, i, past);
    case Borrow(sel, order, failed) =>
      BorrowUsage(t, sel, s, order, failed);
      StillRecent(s, BorrowRound(t, sel, s, order, failed), i, past);
    case Return(sel, order, order2) =>
      ReturnUsage(t, sel, s, order, order2);
      StillRecent(s, ReturnRound(t, sel, s, order, order2), i, past);
  }

  lemma StillRecent(s: State, r: State, i: string, past: seq<real>)
    requires RecentAt(s, i, past) && SameUsage(s, r)
    ensures RecentAt(r, i, past)
  {
  }

  lemma FirstStep(t: Topology, s: State, steps: seq<Step>)
    requires Good(t, s) && AdmissibleRun(t, s, steps) && |steps| > 0
    ensures Possible(t, s, steps[0]) && Good(t, Next(t, s, steps[0])) && AdmissibleRun(t, Next(t, s, steps[0]), steps[1..])
    ensures Run(t, s, steps) == Run(t, Next(t, s, steps[0]), steps[1..])
  {
    hide Good;
    hide Possible;
    hide Harmless;
    hide Next;
    NextGoodExactly(t, s, steps[0]);
  }

  lemma {:induction false} RunRecent(t: Topology, s: State, steps: seq<Step>, i: string, past: seq<real>)
    requires Good(t, s) && AdmissibleRun(t, s, steps) && RecentAt(s, i, past)
    ensures RecentAt(Run(t, s, steps), i, past + SamplesOf(steps, i))
    decreases |steps|
  {
    if |steps| == 0 {
      assert past + [] == past;
    } else {
      hide Good;
      hide RecentAt;
      hide Possible;
      hide Next;
      hide Run;
      hide AdmissibleRun;
      FirstStep(t, s, steps);
      NextRecent(t, s, steps[0], i, past);
      RunRecent(t, Next(t, s, steps[0]), steps[1..], i, past + SamplesOf([steps[0]], i));
      SamplesJoin(steps, i, past);
    }
  }

  lemma SamplesJoin(steps: seq<Step>, i: string, past: seq<real>)
    requires |steps| > 0
    ensures past + SamplesOf([steps[0]], i) + SamplesOf(steps[1..], i) == past + SamplesOf(steps, i)
  {
    assert [steps[0]][1..] == [];
    assert SamplesOf([], i) == [];
  }

  /** In every reachable state a container's window holds the last thirty samples taken of it, and their sum. */
  lemma WindowsReached(t: Topology, steps: seq<Step>, i: string)
    requires t.Uniform() && AdmissibleRun(t, Start(t), steps)
    ensures var s := Run(t, Start(t), steps);
            if i in s.dockers then Recent(s.dockers[i], SamplesOf(steps, i)) else SamplesOf(steps, i) == []
  {
    StartGood(t);
    RunRecent(t, Start(t), steps, i, []);
    hide Run;
    assert [] + SamplesOf(steps, i) == SamplesOf(steps, i);
  }

  /** What the rounds rely on: every container has samples, at most thirty, and their sum. */
  ghost predicate Windowed(s: State) {
    forall i :: i in s.dockers ==> 0 < |s.dockers[i].usage| <= 30 && s.dockers[i].usageSum == SumOf(s.dockers[i].usage)
  }

  lemma ReachedWindowed(t: Topology, steps: seq<Step>)
    requires t.Uniform() && AdmissibleRun(t, Start(t), steps)
    ensures Good(t, Run(t, Start(t), steps)) && Windowed(Run(t, Start(t), steps))
  {
    hide Good;
    hide Run;
    hide AdmissibleRun;
    hide Recent;
    StartGood(t);
    RunGood(t, Start(t), steps);
    var s := Run(t, Start(t), steps);
    forall i | i in s.dockers ensures 0 < |s.dockers[i].usage| <= 30 && s.dockers[i].usageSum == SumOf(s.dockers[i].usage) {
      WindowsReached(t, steps, i);
      RecentSize(s.dockers[i], SamplesOf(steps, i));
    }
  }

  lemma RecentSize(d: Docker, all: seq<real>)
    requires Recent(d, all)
    ensures 0 < |d.usage| <= 30 && d.usageSum == SumOf(d.usage)
  {
  }

  // ---------- Who is called back ----------

  /** The mean of the samples is at least `percent` per cent of a limit. */
  ghost predicate MeanAtLeast(d: Docker, percent: real, limit: real) {
    SumOf(d.usage) >= percent * limit * |d.usage| as real
  }

  lemma MeanIs(sum: real, n: nat, bound: real)
    requires n > 0
    ensures sum / n as real >= bound <==> sum >= bound * n as real
    ensures sum / n as real <= bound <==> sum <= bound * n as real
  {
    var q, k := sum / n as real, n as real;
    assert q * k == sum;
    if q < bound {
      TimesMono(q, bound, k);
    } else if q > bound {
      TimesMono(bound, q, k);
    }
  }

  lemma TimesMono(a: real, b: real, k: real)
    requires a < b && k > 0.0
    ensures a * k < b * k
  {
  }

  /** What the three decisions come to for a container whose sum is that of its samples. */
  lemma DecisionsAre(d: Docker)
    requires |d.usage| > 0 && d.usageSum == SumOf(d.usage)
    ensures WantsBack(d) <==> d.lended && MeanAtLeast(d, 95.0, d.current)
    ensures NeedsMore(d) <==> MeanAtLeast(d, 90.0, d.initial)
    ensures CanLend(d) <==> !d.lended && d.borrow == map[] && |d.usage| == 30 && SumOf(d.usage) <= 50.0 * d.initial * 30.0
  {
    MeanIs(d.usageSum, |d.usage|, d.current * 100.0 * 0.95);
    assert d.current * 100.0 * 0.95 == 95.0 * d.current;
    MeanIs(d.usageSum, |d.usage|, d.initial * 100.0 * 0.90);
    assert d.initial * 100.0 * 0.90 == 90.0 * d.initial;
    MeanIs(d.usageSum, 30, d.initial * 100.0 * 0.5);
    assert d.initial * 100.0 * 0.5 == 50.0 * d.initial;
  }

  /** Lenders whose mean load has reached 95 per cent of the limit they have left. */
  ghost function CalledBack(s: State): set<string> {
    set i | i in s.dockers && s.dockers[i].lended && MeanAtLeast(s.dockers[i], 95.0, s.dockers[i].current)
  }

  lemma RecallersAre(s: State, order: seq<string>)
    requires Windowed(s) && Lists(order, s.dockers)
    ensures SetOf(Recallers(s, order)) == CalledBack(s)
  {
    forall i | i in s.dockers ensures WantsBack(s.dockers[i]) <==> i in CalledBack(s) {
      DecisionsAre(s.dockers[i]);
    }
    hide WantsBack;
    hide MeanAtLeast;
  }

  /** A container after a return round: d before, e after. */
  ghost predicate AfterReturn(s: State, i: string, d: Docker, e: Docker) {
    var back := CalledBack(s);
    && e.lended == (d.lended && i !in back) && e.lend == d.lend && e.initial == d.initial && e.bound == d.bound
    && e.current == d.current + (if i in back then d.lend else 0.0) - Sum(back, SharesOf(d))
    && (forall j :: j in e.borrow <==> j in d.borrow && j !in back) && forall j :: j in e.borrow ==> e.borrow[j] == d.borrow[j]
  }

  /**
   * A return round: exactly the lenders whose mean load has reached 95 per cent of their limit get back what they lent,
   * and every container loses what it has borrowed from them.
   */
  lemma ReturnMeaning(t: Topology, sel: Selector, s: State, order: seq<string>, order2: seq<string>)
    requires Good(t, s) && Windowed(s) && Possible(t, s, Return(sel, order, order2))
    ensures var r := ReturnRound(t, sel, s, order, order2);
            forall i :: i in s.dockers ==> AfterReturn(s, i, s.dockers[i], r.dockers[i])
  {
    ReturnBooks(t, sel, s, order, order2);
    hide Good;
    hide Possible;
    hide ReturnRound;
    var r := ReturnRound(t, sel, s, order, order2);
    assert Lists(order, s.dockers);
    ReturnedMeaning(s, order, r);
    hide AfterReturn;
    hide Windowed;
  }

  lemma ReturnedMeaning(s: State, order: seq<string>, r: State)
    requires Windowed(s) && Lists(order, s.dockers) && Recalled(s, Recallers(s, order), r)
    ensures forall i :: i in s.dockers ==> AfterReturn(s, i, s.dockers[i], r.dockers[i])
  {
    var R := Recallers(s, order);
    RecallersOnce(s, order);
    RecallersAre(s, order);
    hide Recallers;
    hide CalledBack;
    forall i | i in s.dockers ensures AfterReturn(s, i, s.dockers[i], r.dockers[i]) {
      assert Returned(R, i, s.dockers[i], r.dockers[i]);
      OwedIsSum(s.dockers[i], R);
      assert i in R <==> i in SetOf(R);
    }
  }

  // ---------- Who lends and who borrows ----------

  /** Neither lending nor borrowing, with thirty samples of at most half the initial limit on average. */
  ghost function IdleOnes(s: State): set<string> {
    set i | i in s.dockers && !s.dockers[i].lended && s.dockers[i].borrow == map[] && |s.dockers[i].usage| == 30
            && SumOf(s.dockers[i].usage) <= 50.0 * s.dockers[i].initial * 30.0
  }

  /** The others whose mean load has reached 90 per cent of the initial limit. */
  ghost function BusyOnes(s: State): set<string> {
    set i | i in s.dockers && i !in IdleOnes(s) && MeanAtLeast(s.dockers[i], 90.0, s.dockers[i].initial)
  }

  ghost function HalfOf(s: State): string -> real {
    i => if i in s.dockers then s.dockers[i].initial * 0.5 else 0.0
  }

  /** Half the initial limits of all idle containers. */
  ghost function Pool(s: State): real {
    Sum(IdleOnes(s), HalfOf(s))
  }

  ghost predicate Active(s: State) {
    Pool(s) >= 0.01 && BusyOnes(s) != {}
  }

  /** A container after a borrow round: d before, e after. */
  ghost predicate AfterLoan(s: State, failed: set<string>, i: string, d: Docker, e: Docker) {
    var lends, takes := i in IdleOnes(s), i in BusyOnes(s);
    && e.initial == d.initial && e.bound == d.bound
    && e.lend == (if lends then d.initial * 0.5 else d.lend)
    && e.lended == (d.lended || (Active(s) && lends && i !in failed))
    && (Active(s) ==> e.current == d.current + (if takes then Pool(s) / |BusyOnes(s)| as real else 0.0) - (if lends then d.initial * 0.5 else 0.0))
    && (!Active(s) ==> e.current == d.current)
    && (forall j :: j in e.borrow <==> j in d.borrow || (Active(s) && takes && j in IdleOnes(s)))
    && forall j :: j in e.borrow ==>
         e.borrow[j] == if Active(s) && takes && j in IdleOnes(s) then HalfOf(s)(j) / |BusyOnes(s)| as real else d.borrow[j]
  }

  lemma PlanIs(s: State, order: seq<string>)
    requires Ledger(s.dockers) && Windowed(s) && Lists(order, s.dockers) && Participants(s)
    ensures var p := PlanOf(s, order);
            && SetOf(p.lenders) == IdleOnes(s) && SetOf(p.borrowers) == BusyOnes(s)
            && |p.borrowers| == |BusyOnes(s)| && p.total == Pool(s) && (p.Quiet() <==> !Active(s))
            && OffersHalf(s, p.offered)
  {
    hide Ledger;
    hide IdleOnes;
    hide BusyOnes;
    hide Participants;
    hide Windowed;
    PlanFacts(s, order);
    LendersAre(s, order);
    OffersAre(s, order);
    BorrowersAre(s, order);
    var p := PlanOf(s, order);
    hide PlanOf;
    PoolIs(s, p.offered);
    SetOfSize(p.borrowers);
    assert p.borrowers != [] ==> p.borrowers[0] in SetOf(p.borrowers);
    hide OffersHalf;
    hide Pool;
  }

  /** The idle containers' offers are recorded. */
  ghost predicate OffersHalf(s: State, o: State) {
    o.dockers.Keys == s.dockers.Keys && forall i :: i in s.dockers ==>
      o.dockers[i] == if i in IdleOnes(s) then s.dockers[i].(lend := s.dockers[i].initial * 0.5) else s.dockers[i]
  }

  lemma LendersAre(s: State, order: seq<string>)
    requires Windowed(s) && Lists(order, s.dockers)
    ensures SetOf(PlanOf(s, order).lenders) == IdleOnes(s)
  {
    forall i | i in s.dockers ensures CanLend(s.dockers[i]) <==> i in IdleOnes(s) {
      DecisionsAre(s.dockers[i]);
    }
    hide CanLend;
  }

  lemma OffersAre(s: State, order: seq<string>)
    requires Windowed(s) && Lists(order, s.dockers)
    ensures OffersHalf(s, PlanOf(s, order).offered)
  {
    LendersAre(s, order);
    hide IdleOnes;
    var p := PlanOf(s, order);
    forall i | i in s.dockers
      ensures p.offered.dockers[i] == if i in IdleOnes(s) then s.dockers[i].(lend := s.dockers[i].initial * 0.5) else s.dockers[i]
    {
      assert i in p.lenders <==> i in SetOf(p.lenders);
      if i in p.lenders {
        OfferIsHalf(s.dockers[i]);
      }
    }
  }

  lemma PoolIs(s: State, o: State)
    requires OffersHalf(s, o)
    ensures Sum(IdleOnes(s), LendOf(o)) == Pool(s)
  {
    forall i | i in IdleOnes(s) ensures LendOf(o)(i) == HalfOf(s)(i) {
      assert i in s.dockers;
    }
    SumSame(IdleOnes(s), LendOf(o), HalfOf(s));
  }

  lemma BorrowersAre(s: State, order: seq<string>)
    requires Windowed(s) && Lists(order, s.dockers)
    ensures SetOf(PlanOf(s, order).borrowers) == BusyOnes(s)
  {
    LendersAre(s, order);
    OffersAre(s, order);
    hide IdleOnes;
    var p := PlanOf(s, order);
    forall i | i in s.dockers ensures i in p.borrowers <==> i in BusyOnes(s) {
      var d, o := s.dockers[i], p.offered.dockers[i];
      DecisionsAre(d);
      DecisionsAre(o);
      assert i in p.lenders <==> i in SetOf(p.lenders);
    }
    hide NeedsMore;
    hide MeanAtLeast;
  }

  /**
   * A borrow round: half of every idle container's initial limit is pooled, and the busy ones share the pool equally, if
   * there is one of either and the pool is no trifle. Offers are recorded in any case.
   */
  lemma BorrowMeaning(t: Topology, sel: Selector, s: State, order: seq<string>, failed: set<string>)
    requires Good(t, s) && Windowed(s) && Possible(t, s, Borrow(sel, order, failed))
    ensures var r := BorrowRound(t, sel, s, order, failed);
            forall i :: i in s.dockers ==> AfterLoan(s, failed, i, s.dockers[i], r.dockers[i])
  {
    BorrowBooks(t, sel, s, order, failed);
    hide BorrowRound;
    hide BorrowFits;
    hide Sound;
    PlanIs(s, order);
    hide Ledger;
    hide AfterLoan;
    hide IdleOnes;
    hide BusyOnes;
    hide Pool;
    hide PlanOf;
    hide Participants;
    var r := BorrowRound(t, sel, s, order, failed);
    forall i | i in s.dockers ensures AfterLoan(s, failed, i, s.dockers[i], r.dockers[i]) {
      LentMeaning(s, PlanOf(s, order), failed, i, r.dockers[i]);
    }
  }

  /** The fields of an entry whose books are as planned. */
  lemma LentFields(p: Plan, failed: set<string>, i: string, e: Docker)
    requires i in p.offered.dockers && (forall id :: id in p.lenders ==> id in p.offered.dockers)
    requires Book(e) == BorrowBook(p, failed, i)
    ensures var d := p.offered.dockers[i];
            var takes, lends := !p.Quiet() && i in p.borrowers, !p.Quiet() && i !in p.borrowers && i in p.lenders;
            && e.initial == d.initial && e.bound == d.bound && e.lend == d.lend
            && e.lended == (d.lended || (lends && i !in failed))
            && e.current == d.current + (if takes then p.Limit() else 0.0) - (if lends then d.lend else 0.0)
            && e.borrow == if takes then d.borrow + Shares(p.offered, p.lenders, |p.borrowers|) else d.borrow
  {
    var d := p.offered.dockers[i];
    if p.Quiet() {
      BookFields(e, d);
    } else if i in p.borrowers {
      BookFields(e, d.(current := d.current + p.Limit(), borrow := d.borrow + Shares(p.offered, p.lenders, |p.borrowers|)));
    } else if i in p.lenders {
      BookFields(e, d.(current := d.current - d.lend, lended := d.lended || i !in failed));
    } else {
      BookFields(e, d);
    }
    hide Book;
    hide Shares;
  }

  lemma LentMeaning(s: State, p: Plan, failed: set<string>, i: string, e: Docker)
    requires i in s.dockers && i in p.offered.dockers
    requires (forall id :: id in p.lenders ==> id in p.offered.dockers) && Book(e) == BorrowBook(p, failed, i)
    requires SetOf(p.lenders) == IdleOnes(s) && SetOf(p.borrowers) == BusyOnes(s)
    requires |p.borrowers| == |BusyOnes(s)| && p.total == Pool(s) && (p.Quiet() <==> !Active(s))
    requires OffersHalf(s, p.offered)
    ensures AfterLoan(s, failed, i, s.dockers[i], e)
  {
    LentFields(p, failed, i, e);
    hide Book;
    hide BorrowBook;
    hide Pool;
    hide Active;
    assert forall j :: j in p.lenders <==> j in SetOf(p.lenders);
    assert forall j :: j in p.borrowers <==> j in SetOf(p.borrowers);
    hide SetOf;
    assert i in IdleOnes(s) ==> i !in BusyOnes(s);
    assert forall j :: j in IdleOnes(s) ==> j in s.dockers && p.offered.dockers[j].lend == HalfOf(s)(j);
    assert p.offered.dockers[i] == if i in IdleOnes(s) then s.dockers[i].(lend := s.dockers[i].initial * 0.5) else s.dockers[i];
    hide BusyOnes;
    hide IdleOnes;
    hide OffersHalf;
  }
}
