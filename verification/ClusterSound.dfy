/** Cpuset sizes follow the limits through every operation and round. */
module ClusterSound {
  import opened Seqs
  import opened Topologies
  import opened Ceilings
  import opened ClusterSelection
  import opened ClusterSpec
  import opened ClusterInvariant
  import opened ClusterSteps
  import opened ClusterRounds

  ghost function BoundIds(s: State): set<string> {
    set i | i in s.dockers && s.dockers[i].bound
  }

  /** A bound container holds exactly as many CPUs as its limit rounded up. */
  ghost predicate Sized(d: Docker) {
    |d.bind| > 0 && |d.cpuSet| == Ceil(d.current)
  }

  ghost predicate Sound(t: Topology, s: State) {
    t.Uniform() && Partitioned(t, s, BoundIds(s)) && forall i :: i in BoundIds(s) ==> Sized(s.dockers[i])
  }

  /** Everything about a container except where it is placed. */
  function Book(d: Docker): Docker {
    d.(cpuSet := [], memSet := [], bind := [])
  }

  /** The states agree on where everything is placed. */
  ghost predicate SamePlaces(s: State, r: State) {
    && r.clusters == s.clusters && r.nodes == s.nodes && r.dockers.Keys == s.dockers.Keys
    && forall i :: i in s.dockers ==>
         r.dockers[i].cpuSet == s.dockers[i].cpuSet && r.dockers[i].memSet == s.dockers[i].memSet
         && r.dockers[i].bind == s.dockers[i].bind
  }

  lemma SamePlacesKeeps(t: Topology, s: State, r: State, P: set<string>)
    requires Partitioned(t, s, P) && SamePlaces(s, r)
    ensures Partitioned(t, r, P)
  {
    assert CoresOk(t, r) && NodesOk(t, r) by {
      assert forall k :: t.IsCluster(k) && CoresSplit(t, s, k) ==> CoresSplit(t, r, k);
      assert forall k :: t.IsNode(k) && ClustersSplit(t, s, k) ==> ClustersSplit(t, r, k);
    }
    forall i | i in P ensures Placed(t, r, r.dockers[i]) {
      assert Placed(t, s, s.dockers[i]);
    }
    assert forall i, k :: Holds(r, i, k) <==> Holds(s, i, k);
    OwnedSame(t, s, r, P);
  }

  /** Book-keeping alone keeps a state sound. */
  lemma BookKeeps(t: Topology, s: State, r: State)
    requires Sound(t, s) && SamePlaces(s, r)
    requires forall i :: i in s.dockers ==> r.dockers[i].bound == s.dockers[i].bound && r.dockers[i].current == s.dockers[i].current
    ensures Sound(t, r)
  {
    SamePlacesKeeps(t, s, r, BoundIds(s));
    assert BoundIds(r) == BoundIds(s);
  }

  /** r is s with container id's limit changed to `limit` and its cpuset following along. */
  ghost predicate Relimited(s: State, r: State, id: string, limit: real) {
    && id in s.dockers && r.dockers.Keys == s.dockers.Keys
    && (forall j :: j in s.dockers && j != id ==> r.dockers[j] == s.dockers[j])
    && Book(r.dockers[id]) == Book(s.dockers[id].(current := limit))
    && r.dockers[id].memSet == s.dockers[id].memSet
  }

  lemma RelimitedSound(t: Topology, s: State, m: State, r: State, id: string, limit: real)
    requires Sound(t, s) && Partitioned(t, m, BoundIds(s)) && OnlyPlacement(s, m, id) && s.dockers[id].bound
    requires r == SetLimit(m, id, limit) && |m.dockers[id].bind| > 0 && |m.dockers[id].cpuSet| == Ceil(limit)
    requires m.dockers[id].memSet == s.dockers[id].memSet
    ensures Sound(t, r) && Relimited(s, r, id, limit)
  {
    hide Partitioned;
    SamePlacesKeeps(t, m, r, BoundIds(s));
    assert BoundIds(r) == BoundIds(s);
  }

  /** The cpuset part of an addition: as many CPUs as the new limit rounded up. */
  lemma AddedCores(t: Topology, sel: Selector, s: State, id: string, limit: real, need: int, more: nat)
    requires Sound(t, s) && id in BoundIds(s) && sel.Calm() && limit >= 0.0
    requires need == Extra(s.dockers[id], limit) && more == NewClusters(t, s, id, limit)
    requires more <= |NodeAt(s.nodes, HomeOf(s.dockers[id])).free|
    ensures var m, d := Widen(t, sel, s, id, need), s.dockers[id];
            var n := HomeOf(d);
            && Partitioned(t, m, BoundIds(s)) && OnlyPlacement(s, m, id) && m.dockers[id].memSet == d.memSet && d.bound
            && |m.dockers[id].bind| > 0 && |m.dockers[id].cpuSet| == Ceil(d.current + limit)
            && OnlyNode(s, m, n) && OnlyHeld(s, m, id)
            && |NodeAt(m.nodes, n).free| == |NodeAt(s.nodes, n).free| - more
  {
    var d := s.dockers[id];
    assert Sized(d) && more == MoreClusters(t, s, d, need) && Partitioned(t, s, BoundIds(s)) && d.bound;
    CeilMonotone(d.current, d.current + limit);
    hide Partitioned;
    hide Sound;
    hide NewClusters;
    WidenKeeps(t, sel, s, BoundIds(s), id, need, more);
    hide Widen;
    hide MoreClusters;
    hide OnlyPlacement;
    hide OnlyHeld;
    hide OnlyNode;
  }

  /** r is s after an addition that took `more` clusters of the container's node. */
  ghost predicate Raised(t: Topology, s: State, r: State, id: string, limit: real, more: int) {
    && Sound(t, r) && Relimited(s, r, id, limit) && OnlyHeld(s, r, id)
    && var n := HomeOf(s.dockers[id]);
    && OnlyNode(s, r, n)
    && |NodeAt(r.nodes, n).free| == |NodeAt(s.nodes, n).free| - more
  }

  /** Setting the limit after the cpuset has been widened from s to m. */
  lemma WidenedSound(t: Topology, s: State, m: State, r: State, id: string, limit: real, more: int)
    requires Sound(t, s) && Partitioned(t, m, BoundIds(s)) && OnlyPlacement(s, m, id) && s.dockers[id].bound
    requires r == SetLimit(m, id, limit) && |m.dockers[id].bind| > 0 && |m.dockers[id].cpuSet| == Ceil(limit)
    requires m.dockers[id].memSet == s.dockers[id].memSet && OnlyHeld(s, m, id)
    requires var n := HomeOf(s.dockers[id]);
             OnlyNode(s, m, n) && |NodeAt(m.nodes, n).free| == |NodeAt(s.nodes, n).free| - more
    ensures Raised(t, s, r, id, limit, more)
  {
    hide Partitioned;
    RelimitedSound(t, s, m, r, id, limit);
    hide Sound;
    hide Relimited;
  }

  lemma BoundIn(t: Topology, s: State, id: string)
    requires Sound(t, s) && id in BoundIds(s)
    ensures t.Uniform() && id in s.dockers && s.dockers[id].bound
  {
  }

  lemma AddLimitSets(t: Topology, sel: Selector, s: State, id: string, limit: real)
    requires t.Uniform() && id in s.dockers
    ensures var d := s.dockers[id];
            AddLimit(t, sel, s, id, limit) == SetLimit(Widen(t, sel, s, id, Extra(d, limit)), id, d.current + limit)
  {
    hide Widen;
    hide Extra;
    hide SetLimit;
  }

  /** DockerAddCpuLimitComm: the cpuset grows to the new limit rounded up. */
  lemma AddLimitKeeps(t: Topology, sel: Selector, s: State, id: string, limit: real)
    requires Sound(t, s) && id in BoundIds(s) && sel.Calm() && limit >= 0.0
    requires NewClusters(t, s, id, limit) <= |NodeAt(s.nodes, HomeOf(s.dockers[id])).free|
    ensures Raised(t, s, AddLimit(t, sel, s, id, limit), id, s.dockers[id].current + limit, NewClusters(t, s, id, limit))
  {
    hide *;
    BoundIn(t, s, id);
    AddLimitSets(t, sel, s, id, limit);
    var d := s.dockers[id];
    AddedCores(t, sel, s, id, limit, Extra(d, limit), NewClusters(t, s, id, limit));
    WidenedSound(t, s, Widen(t, sel, s, id, Extra(d, limit)), AddLimit(t, sel, s, id, limit), id, d.current + limit,
                 NewClusters(t, s, id, limit));
  }

  /** DockerMinusCpuLimitComm: the cpuset shrinks to the new limit rounded up. */
  lemma MinusLimitKeeps(t: Topology, s: State, id: string, limit: real)
    requires Sound(t, s) && id in BoundIds(s) && 0.0 <= limit <= s.dockers[id].current
    ensures var r := MinusLimit(s, id, limit);
            Sound(t, r) && Relimited(s, r, id, s.dockers[id].current - limit)
  {
    hide Partitioned;
    hide Placed;
    hide GiveBack;
    var d := s.dockers[id];
    CeilMonotone(d.current - limit, d.current);
    CeilMonotone(0.0, d.current - limit);
    var need := Surplus(d, limit);
    GiveBackKeeps(t, s, BoundIds(s), id, need);
    RelimitedSound(t, s, GiveBack(s, id, need), MinusLimit(s, id, limit), id, d.current - limit);
  }

  /** What a turn of the bind schedule comes to. */
  ghost predicate Turned(t: Topology, s: State, b: BindResult, id: string, home: int)
    requires t.Uniform() && id in s.dockers && id in b.state.dockers
  {
    var d, e := s.dockers[id], b.state.dockers[id];
    var due := !d.bound && d.initial > 0.0;
    && (b.stopped <==> due && |NodeAt(s.nodes, home).free| < ClustersFor(t, d.initial))
    && (b.stopped || !due ==> b.state == s)
    && (due && !b.stopped ==> e.bound && |e.cpuSet| == Ceil(d.initial) && e.memSet == [home] && |e.bind| == ClustersFor(t, d.initial))
  }

  /** A turn whose commands succeed binds the container with ceil(initial limit) CPUs or leaves everything as it was. */
  lemma BindTurnKeeps(t: Topology, sel: Selector, s: State, id: string, home: int)
    requires Sound(t, s) && id in s.dockers && t.IsNode(home) && sel.Calm()
    requires !s.dockers[id].bound ==> s.dockers[id].current == s.dockers[id].initial
    ensures var b := BindTurn(t, sel, s, id, home, true);
            var r := b.state;
            && Sound(t, r) && Turned(t, s, b, id, home)
            && (forall j :: j in s.dockers && j != id ==> r.dockers[j] == s.dockers[j])
            && Book(r.dockers[id]).(bound := false) == Book(s.dockers[id]).(bound := false)
            && (s.dockers[id].bound ==> r.dockers[id].bound) && (s.dockers[id].initial <= 0.0 ==> r == s)
  {
    hide Partitioned;
    hide Placed;
    hide BindTo;
    var d := s.dockers[id];
    if !d.bound && d.initial > 0.0 {
      PlacedIn(t, s, BoundIds(s), id);
      CeilOfQuotient(d.initial, t.Cores());
      var m := ClustersFor(t, d.initial);
      if |NodeAt(s.nodes, home).free| >= m {
        BindToKeeps(t, sel, s, BoundIds(s), id, home, m);
        var b := BindTo(t, sel, s, id, home, m);
        var r := BindTurn(t, sel, s, id, home, true).state;
        SamePlacesKeeps(t, b, r, BoundIds(s) + {id});
        assert BoundIds(r) == BoundIds(s) + {id};
      }
    }
  }

  // ---------- Sequences of turns ----------

  /** Clusters that a list of additions takes from node n. */
  ghost function Demand(t: Topology, s: State, ids: seq<string>, amount: string -> real, n: int): nat
    requires t.Uniform() && forall id :: id in ids ==> id in s.dockers
  {
    if |ids| == 0 then 0
    else Demand(t, s, Init(ids), amount, n) +
         (if HomeOf(s.dockers[Last(ids)]) == n then NewClusters(t, s, Last(ids), amount(Last(ids))) else 0)
  }

  /** Enough free clusters for a list of additions, checked before any of them. */
  ghost predicate Fits(t: Topology, s: State, ids: seq<string>, amount: string -> real)
    requires t.Uniform() && forall id :: id in ids ==> id in s.dockers
  {
    forall n :: t.IsNode(n) ==> Demand(t, s, ids, amount, n) <= |NodeAt(s.nodes, n).free|
  }

  lemma DemandPrefix(t: Topology, s: State, ids: seq<string>, amount: string -> real)
    requires t.Uniform() && |ids| > 0 && forall id :: id in ids ==> id in s.dockers
    requires Fits(t, s, ids, amount)
    ensures (forall id :: id in Init(ids) ==> id in s.dockers) && Fits(t, s, Init(ids), amount)
  {
    forall n | t.IsNode(n) ensures Demand(t, s, Init(ids), amount, n) <= |NodeAt(s.nodes, n).free| {
      assert Demand(t, s, ids, amount, n) <= |NodeAt(s.nodes, n).free|;
    }
  }

  /** The newest cluster of a container that nobody else touched has as many free cores as before. */
  lemma SpareUntouched(t: Topology, s: State, r: State, id: string, j: string)
    requires Sound(t, r) && OnlyHeld(s, r, id) && j in BoundIds(r) && id in BoundIds(r) && j != id
    requires j in s.dockers && r.dockers[j].bind == s.dockers[j].bind
    ensures Spare(r, r.dockers[j]) == Spare(s, s.dockers[j])
  {
    var c := NewestOf(r.dockers[j]);
    assert Sized(r.dockers[j]);
    assert Holds(r, j, c);
    assert !Holds(r, id, c);
  }

  // What one turn does to a container's books.
  function AfterBorrow(d: Docker, limit: real, shares: map<string, real>): Docker {
    Book(d.(current := d.current + limit, borrow := d.borrow + shares))
  }

  function AfterLend(d: Docker, ok: bool): Docker {
    Book(d.(current := d.current - d.lend, lended := d.lended || ok))
  }

  function AfterRecall(d: Docker): Docker {
    Book(d.(current := d.current + d.lend, lended := false))
  }

  function AfterRepay(d: Docker, amount: real): Docker {
    Book(d.(current := d.current - amount))
  }

  ghost predicate OthersSame(s: State, r: State, id: string) {
    r.dockers.Keys == s.dockers.Keys && forall j :: j in s.dockers && j != id ==> r.dockers[j] == s.dockers[j]
  }

  /** What the state looks like after the additions for `ids` have been made. */
  ghost predicate Added(t: Topology, s: State, r: State, ids: seq<string>, amount: string -> real)
    requires t.Uniform() && forall id :: id in ids ==> id in s.dockers
  {
    && r.dockers.Keys == s.dockers.Keys
    && (forall j :: j in s.dockers && j !in ids ==> r.dockers[j] == s.dockers[j])
    && (forall j :: j in BoundIds(s) && j !in ids ==> Spare(r, r.dockers[j]) == Spare(s, s.dockers[j]))
    && (forall n :: t.IsNode(n) ==> |NodeAt(r.nodes, n).free| == |NodeAt(s.nodes, n).free| - Demand(t, s, ids, amount, n))
  }

  /** r is m after an addition of `amount` for container id, the state otherwise as required of one turn. */
  ghost predicate AddedTurn(t: Topology, m: State, r: State, id: string, amount: real)
    requires t.Uniform() && id in m.dockers
  {
    var n := HomeOf(m.dockers[id]);
    && OthersSame(m, r, id) && OnlyNode(m, r, n)
    && |NodeAt(r.nodes, n).free| == |NodeAt(m.nodes, n).free| - NewClusters(t, m, id, amount)
    && forall j :: j in BoundIds(m) && j != id ==> Spare(r, m.dockers[j]) == Spare(m, m.dockers[j])
  }

  lemma AddTurn(t: Topology, sel: Selector, m: State, id: string, amount: real)
    requires Sound(t, m) && id in BoundIds(m) && sel.Calm() && amount >= 0.0
    requires NewClusters(t, m, id, amount) <= |NodeAt(m.nodes, HomeOf(m.dockers[id])).free|
    ensures var r := AddLimit(t, sel, m, id, amount);
            Sound(t, r) && AddedTurn(t, m, r, id, amount) && Book(r.dockers[id]) == Book(m.dockers[id].(current := m.dockers[id].current + amount))
  {
    hide Partitioned;
    AddLimitKeeps(t, sel, m, id, amount);
    var r := AddLimit(t, sel, m, id, amount);
    hide AddLimit;
    forall j | j in BoundIds(m) && j != id ensures Spare(r, m.dockers[j]) == Spare(m, m.dockers[j]) {
      assert r.dockers[j] == m.dockers[j];
      assert Book(r.dockers[id]).bound;
      SpareUntouched(t, m, r, id, j);
    }
  }

  /** Rewriting a container's books after a change of limit. */
  lemma Marked(t: Topology, a: State, r: State, id: string, d: Docker)
    requires Sound(t, a) && id in a.dockers && r == a.(dockers := a.dockers[id := d])
    requires var e := a.dockers[id];
             d.cpuSet == e.cpuSet && d.memSet == e.memSet && d.bind == e.bind && d.bound == e.bound && d.current == e.current
    ensures Sound(t, r) && OthersSame(a, r, id)
  {
    hide Partitioned;
    BookKeeps(t, a, r);
  }

  lemma MarkedTurn(t: Topology, m: State, a: State, r: State, id: string, amount: real)
    requires t.Uniform() && id in m.dockers && AddedTurn(t, m, a, id, amount) && OthersSame(a, r, id)
    requires r.nodes == a.nodes && r.clusters == a.clusters
    ensures AddedTurn(t, m, r, id, amount)
  {
    hide NewClusters;
  }

  lemma BorrowTurnKeeps(t: Topology, sel: Selector, m: State, id: string, limit: real, shares: map<string, real>)
    requires Sound(t, m) && id in BoundIds(m) && sel.Calm() && limit >= 0.0
    requires NewClusters(t, m, id, limit) <= |NodeAt(m.nodes, HomeOf(m.dockers[id])).free|
    ensures var r := BorrowTurn(t, sel, m, id, limit, shares);
            Sound(t, r) && AddedTurn(t, m, r, id, limit) && Book(r.dockers[id]) == AfterBorrow(m.dockers[id], limit, shares)
  {
    hide Partitioned;
    hide NewClusters;
    hide AddLimit;
    var a, r := AddLimit(t, sel, m, id, limit), BorrowTurn(t, sel, m, id, limit, shares);
    AddTurn(t, sel, m, id, limit);
    hide AddedTurn;
    Marked(t, a, r, id, r.dockers[id]);
    MarkedTurn(t, m, a, r, id, limit);
    hide Sound;
    BookBorrow(m.dockers[id], a.dockers[id], limit, shares);
  }

  lemma BookBorrow(d: Docker, a: Docker, limit: real, shares: map<string, real>)
    requires Book(a) == Book(d.(current := d.current + limit))
    ensures Book(a.(borrow := a.borrow + shares)) == AfterBorrow(d, limit, shares)
  {
    BookFields(a, d.(current := d.current + limit));
  }

  lemma BookFields(a: Docker, b: Docker)
    ensures Book(a) == Book(b) <==>
            a.bound == b.bound && a.lended == b.lended && a.usage == b.usage && a.usageSum == b.usageSum && a.borrow == b.borrow
            && a.initial == b.initial && a.lend == b.lend && a.current == b.current
  {
  }

  lemma RecallTurnKeeps(t: Topology, sel: Selector, m: State, id: string)
    requires Sound(t, m) && id in BoundIds(m) && sel.Calm() && m.dockers[id].lend >= 0.0
    requires NewClusters(t, m, id, m.dockers[id].lend) <= |NodeAt(m.nodes, HomeOf(m.dockers[id])).free|
    ensures var r := RecallTurn(t, sel, m, id);
            Sound(t, r) && AddedTurn(t, m, r, id, m.dockers[id].lend) && Book(r.dockers[id]) == AfterRecall(m.dockers[id])
  {
    hide Partitioned;
    hide NewClusters;
    hide AddLimit;
    var d := m.dockers[id];
    var a, r := AddLimit(t, sel, m, id, d.lend), RecallTurn(t, sel, m, id);
    AddTurn(t, sel, m, id, d.lend);
    hide AddedTurn;
    Marked(t, a, r, id, r.dockers[id]);
    MarkedTurn(t, m, a, r, id, d.lend);
    BookFields(a.dockers[id], d.(current := d.current + d.lend));
    BookFields(r.dockers[id], d.(current := d.current + d.lend, lended := false));
  }

  lemma LendTurnKeeps(t: Topology, m: State, id: string, failed: set<string>)
    requires Sound(t, m) && id in BoundIds(m) && 0.0 <= m.dockers[id].lend <= m.dockers[id].current
    ensures var r := LendTurn(m, id, failed);
            Sound(t, r) && OthersSame(m, r, id) && Book(r.dockers[id]) == AfterLend(m.dockers[id], id !in failed)
  {
    hide Partitioned;
    hide MinusLimit;
    var d := m.dockers[id];
    var a, r := MinusLimit(m, id, d.lend), LendTurn(m, id, failed);
    MinusLimitKeeps(t, m, id, d.lend);
    if id !in failed {
      Marked(t, a, r, id, r.dockers[id]);
    }
    BookFields(a.dockers[id], d.(current := d.current - d.lend));
    BookFields(r.dockers[id], d.(current := d.current - d.lend, lended := d.lended || id !in failed));
  }

  /** One more addition after those for the earlier containers. */
  lemma AddedOneMore(t: Topology, s: State, m: State, r: State, ids: seq<string>, amount: string -> real)
    requires t.Uniform() && |ids| > 0 && NoDup(ids)
    requires forall id :: id in ids ==> id in BoundIds(s)
    requires (forall id :: id in Init(ids) ==> id in s.dockers) && Last(ids) in m.dockers
    requires Added(t, s, m, Init(ids), amount) && AddedTurn(t, m, r, Last(ids), amount(Last(ids)))
    ensures Added(t, s, r, ids, amount)
  {
    hide NewClusters;
    var id := Last(ids);
    InitMembers(ids);
    NewClustersSame(t, s, m, id, amount(id));
    assert m.dockers[id] == s.dockers[id];
    forall j | j in BoundIds(s) && j !in ids ensures Spare(r, r.dockers[j]) == Spare(s, s.dockers[j]) {
      assert m.dockers[j] == s.dockers[j];
      assert j in BoundIds(m);
    }
  }

  lemma NewClustersSame(t: Topology, s: State, m: State, id: string, amount: real)
    requires t.Uniform() && id in s.dockers && id in m.dockers && m.dockers[id] == s.dockers[id]
    requires Spare(m, m.dockers[id]) == Spare(s, s.dockers[id])
    ensures NewClusters(t, m, id, amount) == NewClusters(t, s, id, amount)
  {
  }

  /** When a list of additions fits, its last one fits after the others. */
  lemma LastFits(t: Topology, s: State, m: State, ids: seq<string>, amount: string -> real)
    requires Sound(t, s) && |ids| > 0 && NoDup(ids)
    requires forall id :: id in ids ==> id in BoundIds(s)
    requires Fits(t, s, ids, amount) && Added(t, s, m, Init(ids), amount)
    ensures var id := Last(ids);
            && id in m.dockers && m.dockers[id] == s.dockers[id]
            && NewClusters(t, m, id, amount(id)) <= |NodeAt(m.nodes, HomeOf(m.dockers[id])).free|
  {
    hide Partitioned;
    var id := Last(ids);
    PlacedIn(t, s, BoundIds(s), id);
    hide NewClusters;
    InitMembers(ids);
    NewClustersSame(t, s, m, id, amount(id));
    var n := HomeOf(s.dockers[id]);
    assert t.IsNode(n);
    assert Demand(t, s, ids, amount, n) <= |NodeAt(s.nodes, n).free|;
  }

  lemma InitMembers(ids: seq<string>)
    requires |ids| > 0 && NoDup(ids)
    ensures NoDup(Init(ids)) && Last(ids) !in Init(ids)
    ensures forall k :: k in ids <==> k in Init(ids) || k == Last(ids)
  {
    InitLast(ids);
  }

  /** Every busy container gets its share, and its borrow map records from whom. */
  lemma {:induction false} BorrowAllKeeps(t: Topology, sel: Selector, s: State, ids: seq<string>, limit: real, shares: map<string, real>)
    requires Sound(t, s) && sel.Calm() && NoDup(ids) && limit >= 0.0
    requires forall id :: id in ids ==> id in BoundIds(s)
    requires Fits(t, s, ids, Always(limit))
    ensures var r := BorrowAll(t, sel, s, ids, limit, shares);
            && Sound(t, r) && Added(t, s, r, ids, Always(limit))
            && forall j :: j in ids ==> Book(r.dockers[j]) == AfterBorrow(s.dockers[j], limit, shares)
    decreases |ids|
  {
    assert t.Uniform();
    hide Book;
    hide Sound;
    hide BorrowTurn;
    hide NewClusters;
    hide AfterBorrow;
    if |ids| > 0 {
      var id, amount := Last(ids), Always(limit);
      InitMembers(ids);
      DemandPrefix(t, s, ids, amount);
      BorrowAllKeeps(t, sel, s, Init(ids), limit, shares);
      var m := BorrowAll(t, sel, s, Init(ids), limit, shares);
      LastFits(t, s, m, ids, amount);
      BorrowTurnKeeps(t, sel, m, id, limit, shares);
      var r := BorrowTurn(t, sel, m, id, limit, shares);
      AddedOneMore(t, s, m, r, ids, amount);
      forall j | j in ids ensures Book(r.dockers[j]) == AfterBorrow(s.dockers[j], limit, shares) {
        if j != id {
          assert j in Init(ids) && r.dockers[j] == m.dockers[j];
        }
      }
    }
  }

  lemma {:induction false} RecallAllKeeps(t: Topology, sel: Selector, s: State, ids: seq<string>)
    requires Sound(t, s) && sel.Calm() && NoDup(ids)
    requires forall id :: id in ids ==> id in BoundIds(s) && s.dockers[id].lend >= 0.0
    requires Fits(t, s, ids, LendOf(s))
    ensures var r := RecallAll(t, sel, s, ids);
            && Sound(t, r) && Added(t, s, r, ids, LendOf(s))
            && forall j :: j in ids ==> Book(r.dockers[j]) == AfterRecall(s.dockers[j])
    decreases |ids|
  {
    assert t.Uniform();
    hide Book;
    hide Sound;
    hide RecallTurn;
    hide NewClusters;
    hide AfterRecall;
    if |ids| > 0 {
      var id := Last(ids);
      InitMembers(ids);
      DemandPrefix(t, s, ids, LendOf(s));
      RecallAllKeeps(t, sel, s, Init(ids));
      var m := RecallAll(t, sel, s, Init(ids));
      LastFits(t, s, m, ids, LendOf(s));
      RecallTurnKeeps(t, sel, m, id);
      var r := RecallTurn(t, sel, m, id);
      AddedOneMore(t, s, m, r, ids, LendOf(s));
      forall j | j in ids ensures Book(r.dockers[j]) == AfterRecall(s.dockers[j]) {
        if j != id {
          assert j in Init(ids) && r.dockers[j] == m.dockers[j];
        }
      }
    }
  }

  ghost function Always(limit: real): string -> real {
    id => limit
  }

  ghost function LendOf(s: State): string -> real {
    id => if id in s.dockers then s.dockers[id].lend else 0.0
  }

  lemma {:induction false} LendAllKeeps(t: Topology, s: State, ids: seq<string>, failed: set<string>)
    requires Sound(t, s) && NoDup(ids)
    requires forall id :: id in ids ==> id in BoundIds(s) && 0.0 <= s.dockers[id].lend <= s.dockers[id].current
    ensures var r := LendAll(s, ids, failed);
            && Sound(t, r)
            && (forall j :: j in s.dockers && j !in ids ==> r.dockers[j] == s.dockers[j])
            && forall j :: j in ids ==> Book(r.dockers[j]) == AfterLend(s.dockers[j], j !in failed)
    decreases |ids|
  {
    assert t.Uniform();
    hide Book;
    hide AfterLend;
    hide Sound;
    hide LendTurn;
    if |ids| > 0 {
      InitMembers(ids);
      LendAllKeeps(t, s, Init(ids), failed);
      var id, m, r := Last(ids), LendAll(s, Init(ids), failed), LendAll(s, ids, failed);
      assert m.dockers[id] == s.dockers[id];
      LendTurnKeeps(t, m, id, failed);
      forall j | j in ids ensures Book(r.dockers[j]) == AfterLend(s.dockers[j], j !in failed) {
        if j != id {
          assert j in Init(ids) && r.dockers[j] == m.dockers[j];
        }
      }
    }
  }

  lemma RepayTurn(t: Topology, m: State, id: string, amount: real)
    requires Sound(t, m) && id in BoundIds(m) && 0.0 <= amount <= m.dockers[id].current
    ensures var r := MinusLimit(m, id, amount);
            Sound(t, r) && OthersSame(m, r, id) && Book(r.dockers[id]) == AfterRepay(m.dockers[id], amount)
  {
    hide MinusLimit;
    hide Partitioned;
    MinusLimitKeeps(t, m, id, amount);
  }

  lemma {:induction false} RepayAllKeeps(t: Topology, s: State, order: seq<string>, owed: map<string, real>)
    requires Sound(t, s) && NoDup(order)
    requires forall id :: id in order ==> id in s.dockers
    requires forall id :: id in order && id in owed ==> id in BoundIds(s) && 0.0 <= owed[id] <= s.dockers[id].current
    ensures var r := RepayAll(s, order, owed);
            && Sound(t, r)
            && (forall j :: j in s.dockers && !(j in order && j in owed) ==> r.dockers[j] == s.dockers[j])
            && forall j :: j in order && j in owed ==> Book(r.dockers[j]) == AfterRepay(s.dockers[j], owed[j])
    decreases |order|
  {
    assert t.Uniform();
    hide Book;
    hide Sound;
    hide MinusLimit;
    if |order| > 0 {
      var id := Last(order);
      InitMembers(order);
      RepayAllKeeps(t, s, Init(order), owed);
      var m, r := RepayAll(s, Init(order), owed), RepayAll(s, order, owed);
      assert m.dockers[id] == s.dockers[id];
      if id in owed {
        RepayTurn(t, m, id, owed[id]);
      }
      forall j | j in order && j in owed ensures Book(r.dockers[j]) == AfterRepay(s.dockers[j], owed[j]) {
        if j != id {
          assert j in Init(order) && r.dockers[j] == m.dockers[j];
        }
      }
    }
  }

  ghost predicate BoundMore(d: Docker, r: Docker) {
    && Book(r).(bound := false) == Book(d).(bound := false)
    && (d.bound ==> r.bound) && (r.bound ==> d.bound || d.initial > 0.0)
  }

  lemma {:induction false} BindAllKeeps(t: Topology, sel: Selector, s: State, order: seq<string>, home: map<string, int>)
    requires Sound(t, s) && sel.Calm()
    requires forall id :: id in order ==> id in s.dockers && id in home && t.IsNode(home[id])
    requires forall i :: i in s.dockers && !s.dockers[i].bound ==> s.dockers[i].current == s.dockers[i].initial
    ensures var r := BindAll(t, sel, s, order, home, {}).state;
            Sound(t, r) && forall j :: j in s.dockers ==> BoundMore(s.dockers[j], r.dockers[j])
    decreases |order|
  {
    assert t.Uniform();
    hide Sound;
    hide BindTurn;
    hide BoundMore;
    if |order| > 0 {
      var id := Last(order);
      InitLast(order);
      assert forall k :: k in Init(order) ==> k in order;
      BindAllKeeps(t, sel, s, Init(order), home);
      var b := BindAll(t, sel, s, Init(order), home, {});
      if !b.stopped {
        var m, r := b.state, BindTurn(t, sel, b.state, id, home[id], true).state;
        assert BoundMore(s.dockers[id], m.dockers[id]);
        BoundMoreLimits(s.dockers[id], m.dockers[id]);
        BindTurnKeeps(t, sel, m, id, home[id]);
        BoundMoreTrans(s.dockers[id], m.dockers[id], r.dockers[id]);
        forall j | j in s.dockers ensures BoundMore(s.dockers[j], r.dockers[j]) {
          if j != id {
            assert r.dockers[j] == m.dockers[j] && BoundMore(s.dockers[j], m.dockers[j]);
          }
        }
      }
    } else {
      forall j | j in s.dockers ensures BoundMore(s.dockers[j], s.dockers[j]) {
        BoundMoreSame(s.dockers[j]);
      }
    }
  }

  lemma BoundMoreSame(d: Docker)
    ensures BoundMore(d, d)
  {
  }

  lemma BoundMoreLimits(d: Docker, r: Docker)
    requires BoundMore(d, r)
    ensures r.current == d.current && r.initial == d.initial && (d.bound ==> r.bound)
  {
    assert Book(r).(bound := false).current == r.current && Book(d).(bound := false).current == d.current;
    assert Book(r).(bound := false).initial == r.initial && Book(d).(bound := false).initial == d.initial;
  }

  lemma BoundMoreTrans(d: Docker, m: Docker, r: Docker)
    requires BoundMore(d, m) && Book(r).(bound := false) == Book(m).(bound := false)
    requires (m.bound ==> r.bound) && (m.initial <= 0.0 ==> r == m)
    ensures BoundMore(d, r)
  {
    BoundMoreLimits(d, m);
  }

  // ---------- What soundness means ----------

  /** No CPU belongs to two bound containers. */
  lemma CpuSetsDisjoint(t: Topology, s: State, i: string, j: string, x: int)
    requires Sound(t, s) && i in BoundIds(s) && j in BoundIds(s) && i != j
    requires x in s.dockers[i].cpuSet
    ensures x !in s.dockers[j].cpuSet
  {
    if x in s.dockers[j].cpuSet {
      var c := HoldingCluster(t, s, i, x);
      var k := HoldingCluster(t, s, j, x);
      BlocksApart(c, k, t.size, x);
    }
  }

  /** Each CPU of a bound container is an occupied core of exactly the cluster it lies in, which the container holds. */
  lemma HoldingCluster(t: Topology, s: State, i: string, x: int) returns (c: int)
    requires Sound(t, s) && i in BoundIds(s) && x in s.dockers[i].cpuSet
    ensures Holds(s, i, c) && x in ClusterAt(s.clusters, c).occupied && c * t.size <= x < c * t.size + t.size
    ensures c in t.ClusterIds(HomeOf(s.dockers[i]))
  {
    var P := BoundIds(s);
    PlacedIn(t, s, P, i);
    var d := s.dockers[i];
    assert x in multiset(d.cpuSet);
    OccBagMember(s.clusters, d.bind, x);
    c :| c in d.bind && x in ClusterAt(s.clusters, c).occupied;
    HeldIsOccupied(t, s, P, i, c);
    CorePlace(t, s, P, c);
  }

  /** A bound container's cpuset: ceil(limit) distinct CPUs. */
  lemma CpuSetSize(t: Topology, s: State, i: string)
    requires Sound(t, s) && i in BoundIds(s)
    ensures |s.dockers[i].cpuSet| == Ceil(s.dockers[i].current) && NoDup(s.dockers[i].cpuSet)
  {
    assert Sized(s.dockers[i]);
    CpuSetDistinct(t, s, BoundIds(s), i);
  }
}
