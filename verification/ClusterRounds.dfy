/** The allocator's rounds on values: binding new containers, lending to busy ones, and taking loans back. */
module ClusterRounds {
  import opened Seqs
  import opened Topologies
  import opened Ceilings
  import opened ClusterSelection
  import opened ClusterSpec

  const CPU_USAGE_QUEUE_LENGTH: nat := 30

  // ---------- Containers arriving and being sampled ----------

  function Push(d: Docker, x: real): Docker {
    var q, sum := d.usage + [x], d.usageSum + x;
    if |q| > CPU_USAGE_QUEUE_LENGTH then d.(usage := q[1..], usageSum := sum - q[0])
    else d.(usage := q, usageSum := sum)
  }

  /** A container not seen before enters with its initial limit; every container gets a usage sample. */
  function Sample(s: State, id: string, initial: real, cpus: seq<int>, mems: seq<int>, x: real): State {
    var d := if id in s.dockers then s.dockers[id]
             else Docker(false, false, [], 0.0, cpus, mems, [], map[], initial, 0.0, initial);
    s.(dockers := s.dockers[id := Push(d, x)])
  }

  // ---------- Binding ----------

  datatype BindResult = BindResult(state: State, stopped: bool)

  /** Whole clusters an initial limit needs. */
  function ClustersFor(t: Topology, initial: real): int
    requires t.Uniform()
  {
    PhysCoresFacts(t, 0);
    Ceil(initial / t.Cores() as real)
  }

  /** One turn of DockerOptimizeBindSchedule for container id, which would go to node home; `ok` is whether its commands succeed. */
  function BindTurn(t: Topology, sel: Selector, s: State, id: string, home: int, ok: bool): (r: BindResult)
    requires t.Uniform() && id in s.dockers
    ensures r.state.dockers.Keys == s.dockers.Keys
  {
    var d := s.dockers[id];
    if d.bound || d.initial <= 0.0 then BindResult(s, false)
    else
      var m := ClustersFor(t, d.initial);
      if m < 0 || |NodeAt(s.nodes, home).free| < m then BindResult(s, true)
      else
        var r := BindWith(t, sel, s, id, home, m, ok);
        BindResult(r.(dockers := r.dockers[id := r.dockers[id].(bound := true)]), false)
  }

  /**
   * DockerOptimizeBindSchedule over the containers in the given order; it stops at the first that does not fit.
   * `failed` are the containers whose bind commands fail: they are marked as bound all the same.
   */
  function BindAll(t: Topology, sel: Selector, s: State, order: seq<string>, home: map<string, int>, failed: set<string>): (r: BindResult)
    requires t.Uniform() && forall id :: id in order ==> id in s.dockers && id in home
    ensures r.state.dockers.Keys == s.dockers.Keys
  {
    if |order| == 0 then BindResult(s, false)
    else
      var b := BindAll(t, sel, s, Init(order), home, failed);
      if b.stopped then b else BindTurn(t, sel, b.state, Last(order), home[Last(order)], Last(order) !in failed)
  }

  // ---------- Lending ----------

  function Average(d: Docker): real {
    if |d.usage| == 0 then 0.0 else d.usageSum / |d.usage| as real
  }

  /** Neither lending nor borrowing, with a full window of samples at half load or less. */
  predicate CanLend(d: Docker) {
    && !d.lended && d.borrow == map[]
    && |d.usage| == CPU_USAGE_QUEUE_LENGTH
    && d.usageSum / 30.0 <= d.initial * 100.0 * 0.5
  }

  function Min(a: real, b: real): real {
    if b < a then b else a
  }

  function Offer(d: Docker): real {
    Min(d.initial - d.usageSum / 30.0 / 100.0, d.initial * 0.5)
  }

  predicate NeedsMore(d: Docker) {
    Average(d) >= d.initial * 100.0 * 0.90
  }

  function Lenders(s: State, order: seq<string>): (r: seq<string>)
    requires forall id :: id in order ==> id in s.dockers
    ensures forall id :: id in r <==> id in order && CanLend(s.dockers[id])
  {
    if |order| == 0 then []
    else Lenders(s, Init(order)) + (if CanLend(s.dockers[Last(order)]) then [Last(order)] else [])
  }

  function Borrowers(s: State, order: seq<string>, lenders: seq<string>): (r: seq<string>)
    requires forall id :: id in order ==> id in s.dockers
    ensures forall id :: id in r <==> id in order && id !in lenders && NeedsMore(s.dockers[id])
  {
    if |order| == 0 then []
    else
      var id := Last(order);
      Borrowers(s, Init(order), lenders) + (if id !in lenders && NeedsMore(s.dockers[id]) then [id] else [])
  }

  /** The lenders' offers are recorded before anything else, and stay recorded when nothing comes of them. */
  function Offered(s: State, lenders: seq<string>): (r: State)
    requires forall id :: id in lenders ==> id in s.dockers
    ensures r.dockers.Keys == s.dockers.Keys
  {
    s.(dockers := map id | id in s.dockers ::
        if id in lenders then s.dockers[id].(lend := Offer(s.dockers[id])) else s.dockers[id])
  }

  function TotalOffer(s: State, lenders: seq<string>): real
    requires forall id :: id in lenders ==> id in s.dockers
  {
    if |lenders| == 0 then 0.0 else TotalOffer(s, Init(lenders)) + s.dockers[Last(lenders)].lend
  }

  /** What each of n borrowers takes from every lender. */
  function Shares(s: State, lenders: seq<string>, n: nat): map<string, real>
    requires n > 0 && forall id :: id in lenders ==> id in s.dockers
  {
    map id | id in lenders :: s.dockers[id].lend / n as real
  }

  function BorrowTurn(t: Topology, sel: Selector, s: State, id: string, limit: real, shares: map<string, real>): (r: State)
    requires t.Uniform() && id in s.dockers
    ensures r.dockers.Keys == s.dockers.Keys
  {
    var m := AddLimit(t, sel, s, id, limit);
    m.(dockers := m.dockers[id := m.dockers[id].(borrow := m.dockers[id].borrow + shares)])
  }

  function BorrowAll(t: Topology, sel: Selector, s: State, ids: seq<string>, limit: real, shares: map<string, real>): (r: State)
    requires t.Uniform() && forall id :: id in ids ==> id in s.dockers
    ensures r.dockers.Keys == s.dockers.Keys
  {
    if |ids| == 0 then s
    else BorrowTurn(t, sel, BorrowAll(t, sel, s, Init(ids), limit, shares), Last(ids), limit, shares)
  }

  /** A lender gives up what it offered; it is marked as lending only if its update command succeeded. */
  function LendTurn(s: State, id: string, failed: set<string>): (r: State)
    requires id in s.dockers
    ensures r.dockers.Keys == s.dockers.Keys
  {
    var m := MinusLimit(s, id, s.dockers[id].lend);
    if id in failed then m else m.(dockers := m.dockers[id := m.dockers[id].(lended := true)])
  }

  function LendAll(s: State, ids: seq<string>, failed: set<string>): (r: State)
    requires forall id :: id in ids ==> id in s.dockers
    ensures r.dockers.Keys == s.dockers.Keys
  {
    if |ids| == 0 then s else LendTurn(LendAll(s, Init(ids), failed), Last(ids), failed)
  }

  /** TryBorrowCpuFromIdleDocker; `failed` are the containers whose update command fails. */
  function BorrowRound(t: Topology, sel: Selector, s: State, order: seq<string>, failed: set<string>): (r: State)
    requires t.Uniform() && forall id :: id in order ==> id in s.dockers
    ensures r.dockers.Keys == s.dockers.Keys
  {
    var lenders := Lenders(s, order);
    var o := Offered(s, lenders);
    var borrowers := Borrowers(o, order, lenders);
    var total := TotalOffer(o, lenders);
    if total < 0.01 || |borrowers| == 0 then o
    else
      var m := BorrowAll(t, sel, o, borrowers, total / |borrowers| as real, Shares(o, lenders, |borrowers|));
      LendAll(m, lenders, failed)
  }

  // ---------- Taking loans back ----------

  predicate WantsBack(d: Docker) {
    d.lended && Average(d) >= d.current * 100.0 * 0.95
  }

  function Recallers(s: State, order: seq<string>): (r: seq<string>)
    requires forall id :: id in order ==> id in s.dockers
    ensures forall id :: id in r <==> id in order && WantsBack(s.dockers[id])
  {
    if |order| == 0 then []
    else Recallers(s, Init(order)) + (if WantsBack(s.dockers[Last(order)]) then [Last(order)] else [])
  }

  /** The sum of a borrow map over the given lenders. */
  function Owed(borrow: map<string, real>, lenders: seq<string>): real {
    if |lenders| == 0 then 0.0
    else Owed(borrow, Init(lenders)) + (if Last(lenders) in borrow then borrow[Last(lenders)] else 0.0)
  }

  predicate Owes(borrow: map<string, real>, lenders: seq<string>) {
    exists id :: id in lenders && id in borrow
  }

  /** The recalled entries leave every borrow map. */
  function Cleared(s: State, lenders: seq<string>): (r: State)
    ensures r.dockers.Keys == s.dockers.Keys
  {
    s.(dockers := map id | id in s.dockers :: s.dockers[id].(borrow := s.dockers[id].borrow - SetOf(lenders)))
  }

  function RecallTurn(t: Topology, sel: Selector, s: State, id: string): (r: State)
    requires t.Uniform() && id in s.dockers
    ensures r.dockers.Keys == s.dockers.Keys
  {
    var m := AddLimit(t, sel, s, id, s.dockers[id].lend);
    m.(dockers := m.dockers[id := m.dockers[id].(lended := false)])
  }

  function RecallAll(t: Topology, sel: Selector, s: State, ids: seq<string>): (r: State)
    requires t.Uniform() && forall id :: id in ids ==> id in s.dockers
    ensures r.dockers.Keys == s.dockers.Keys
  {
    if |ids| == 0 then s else RecallTurn(t, sel, RecallAll(t, sel, s, Init(ids)), Last(ids))
  }

  /** The containers in `order` that owe something pay it back. */
  function RepayAll(s: State, order: seq<string>, owed: map<string, real>): (r: State)
    requires forall id :: id in order ==> id in s.dockers
    ensures r.dockers.Keys == s.dockers.Keys
  {
    if |order| == 0 then s
    else
      var m := RepayAll(s, Init(order), owed);
      if Last(order) in owed then MinusLimit(m, Last(order), owed[Last(order)]) else m
  }

  function Debts(s: State, lenders: seq<string>): map<string, real> {
    map id | id in s.dockers && Owes(s.dockers[id].borrow, lenders) :: Owed(s.dockers[id].borrow, lenders)
  }

  /** TryReturnCpuToIdleDocker; `order2` is the order in which the debtors are visited. */
  function ReturnRound(t: Topology, sel: Selector, s: State, order: seq<string>, order2: seq<string>): (r: State)
    requires t.Uniform()
    requires (forall id :: id in order ==> id in s.dockers) && forall id :: id in order2 ==> id in s.dockers
    ensures r.dockers.Keys == s.dockers.Keys
  {
    var recallers := Recallers(s, order);
    if |recallers| == 0 then s
    else RepayAll(RecallAll(t, sel, Cleared(s, recallers), recallers), order2, Debts(s, recallers))
  }

  // ---------- Start-up ----------

  /** The logical CPUs of a cluster. */
  ghost function Block(t: Topology, c: int): seq<int> {
    seq(t.size, k => c * t.size + k)
  }

  /** The second hardware threads of a cluster's cores. */
  ghost function Siblings(t: Topology, c: int): seq<int> {
    Without(Block(t, c), t.PhysCores(c))
  }

  /** The clusters below m, all free. */
  ghost function StartClusters(t: Topology, m: int): map<int, Cluster> {
    map c | 0 <= c < m :: Cluster(Siblings(t, c), t.PhysCores(c), [])
  }

  ghost function StartNodes(t: Topology, m: int): map<int, Node> {
    map n | 0 <= n < m :: Node(t.ClusterIds(n), [])
  }

  /** What InitSystemClusters sets up. */
  ghost function Start(t: Topology): State {
    State(map[], StartClusters(t, t.nodes * t.perNode), StartNodes(t, t.nodes))
  }
}
