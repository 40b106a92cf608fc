/** The bind schedule when bind commands fail: the tables go on as if they had succeeded, the containers' entries do not. */
module ClusterBinding {
  import opened Seqs
  import opened Topologies
  import opened Ceilings
  import opened ClusterSelection
  import opened ClusterSpec
  import opened ClusterInvariant
  import opened ClusterSteps
  import opened ClusterRounds
  import opened ClusterSound
  import opened ClusterBulk
  import opened ClusterTurns

  ghost predicate CanBindAll(t: Topology, sel: Selector, s: State, order: seq<string>, home: map<string, int>) {
    && Sound(t, s) && sel.Calm()
    && (forall id :: id in order ==> id in s.dockers && id in home && t.IsNode(home[id]))
    && forall i :: i in s.dockers && !s.dockers[i].bound ==> s.dockers[i].current == s.dockers[i].initial
  }

  /** The entry of a container after the schedule: g when its command succeeds, or with the cores and node of d kept. */
  function Resulting(d: Docker, g: Docker, fails: bool): Docker {
    if fails && g.bound && !d.bound then g.(cpuSet := d.cpuSet, memSet := d.memSet) else g
  }

  /** From s the schedule leads to g without failures and to r with those of `failed`. */
  ghost predicate Outcome(s: State, g: State, r: State, failed: set<string>) {
    && g.dockers.Keys == s.dockers.Keys && r.dockers.Keys == s.dockers.Keys
    && r.clusters == g.clusters && r.nodes == g.nodes
    && (forall i :: i in s.dockers && !g.dockers[i].bound ==> g.dockers[i] == s.dockers[i])
    && (forall i :: i in s.dockers ==> r.dockers[i] == Resulting(s.dockers[i], g.dockers[i], i in failed))
  }

  /** A container's entry after its bind turn. */
  function BoundEntry(d: Docker, n: int, ids: seq<int>, xs: seq<int>, ok: bool): Docker {
    if ok then d.(cpuSet := xs, memSet := [n], bind := d.bind + ids, bound := true) else d.(bind := d.bind + ids, bound := true)
  }

  /** The turn of a container that is due and fits, with every table written once. */
  lemma BindTurnWritten(t: Topology, sel: Selector, s: State, id: string, home: int, m: nat, ids: seq<int>, ok: bool)
    requires t.Uniform() && id in s.dockers && home in s.nodes && !s.dockers[id].bound && s.dockers[id].initial > 0.0
    requires m == ClustersFor(t, s.dockers[id].initial) <= |NodeAt(s.nodes, home).free|
    requires ids == PickClusters(t, sel, home, NodeAt(s.nodes, home).occupied, m)
    ensures var d := s.dockers[id];
            var f := Filled(t, sel, s.clusters, ids, Ceil(d.initial));
            BindTurn(t, sel, s, id, home, ok) ==
              BindResult(State(s.dockers[id := BoundEntry(d, home, ids, f.1, ok)], f.0, NodeTaken(s.nodes, home, ids)), false)
  {
    BindWithWritten(t, sel, s, id, home, m, ids, ok);
    hide BindWith;
    hide PickClusters;
    hide Filled;
    hide ClustersFor;
    hide NodeTaken;
    hide Ceil;
    hide BoundEntry;
    var d := s.dockers[id];
    var f := Filled(t, sel, s.clusters, ids, Ceil(d.initial));
    var e := BoundEntry(d, home, ids, f.1, ok).(bound := d.bound);
    EntryBound(d, home, ids, f.1, ok);
    assert s.dockers[id := e][id := e.(bound := true)] == s.dockers[id := e.(bound := true)];
  }

  lemma EntryBound(d: Docker, n: int, ids: seq<int>, xs: seq<int>, ok: bool)
    ensures BoundEntry(d, n, ids, xs, ok).(bound := d.bound).(bound := true) == BoundEntry(d, n, ids, xs, ok)
  {
  }

  lemma BindWithWritten(t: Topology, sel: Selector, s: State, id: string, home: int, m: nat, ids: seq<int>, ok: bool)
    requires id in s.dockers && home in s.nodes && ids == PickClusters(t, sel, home, NodeAt(s.nodes, home).occupied, m)
    ensures var d := s.dockers[id];
            var f := Filled(t, sel, s.clusters, ids, Ceil(d.initial));
            BindWith(t, sel, s, id, home, m, ok) ==
              State(s.dockers[id := BoundEntry(d, home, ids, f.1, ok).(bound := d.bound)], f.0, NodeTaken(s.nodes, home, ids))
  {
    BindToWritten(t, sel, s, id, home, m, ids);
    BindWithIs(t, sel, s, id, home, m, ok);
    hide BindTo;
    hide BindWith;
    hide PickClusters;
    hide Filled;
    hide NodeTaken;
    hide Ceil;
    var f := Filled(t, sel, s.clusters, ids, Ceil(s.dockers[id].initial));
    SeatWith(State(s.dockers, f.0, NodeTaken(s.nodes, home, ids)), s, id, home, ids, f.1);
  }

  /** One turn whose commands may fail. */
  lemma TurnOutcome(t: Topology, sel: Selector, s: State, g: State, r: State, failed: set<string>, id: string, home: int)
    requires t.Uniform() && Outcome(s, g, r, failed) && id in s.dockers && home in g.nodes
    ensures var a, b := BindTurn(t, sel, g, id, home, true), BindTurn(t, sel, r, id, home, id !in failed);
            Outcome(s, a.state, b.state, failed) && a.stopped == b.stopped && a.state.nodes.Keys == g.nodes.Keys
  {
    var d := g.dockers[id];
    assert r.dockers[id].bound == d.bound && r.dockers[id].initial == d.initial;
    var m := ClustersFor(t, d.initial);
    if !d.bound && d.initial > 0.0 && 0 <= m <= |NodeAt(g.nodes, home).free| {
      var ids := PickClusters(t, sel, home, NodeAt(g.nodes, home).occupied, m);
      BindTurnWritten(t, sel, g, id, home, m, ids, true);
      BindTurnWritten(t, sel, r, id, home, m, ids, id !in failed);
      TakenKeys(g.nodes, home, ids);
      var f := Filled(t, sel, g.clusters, ids, Ceil(d.initial));
      hide BindTurn;
      hide PickClusters;
      hide Filled;
      hide ClustersFor;
      hide NodeTaken;
      hide Ceil;
      EntryOutcome(s, g, r, failed, id, home, ids, f.1, f.0, NodeTaken(g.nodes, home, ids));
    }
  }

  lemma EntryOutcome(s: State, g: State, r: State, failed: set<string>, id: string, n: int, ids: seq<int>, xs: seq<int>,
                     clusters: map<int, Cluster>, nodes: map<int, Node>)
    requires Outcome(s, g, r, failed) && id in s.dockers && !g.dockers[id].bound
    ensures Outcome(s, State(g.dockers[id := BoundEntry(g.dockers[id], n, ids, xs, true)], clusters, nodes),
                    State(r.dockers[id := BoundEntry(r.dockers[id], n, ids, xs, id !in failed)], clusters, nodes), failed)
  {
    assert g.dockers[id] == s.dockers[id] == r.dockers[id];
  }

  lemma TakenKeys(nodes: map<int, Node>, n: int, ids: seq<int>)
    requires n in nodes
    ensures NodeTaken(nodes, n, ids).Keys == nodes.Keys
  {
  }

  lemma {:induction false} RoundOutcome(t: Topology, sel: Selector, s: State, order: seq<string>, home: map<string, int>, failed: set<string>)
    requires t.Uniform() && forall id :: id in order ==> id in s.dockers && id in home && home[id] in s.nodes
    ensures var a, b := BindAll(t, sel, s, order, home, {}), BindAll(t, sel, s, order, home, failed);
            Outcome(s, a.state, b.state, failed) && a.stopped == b.stopped && a.state.nodes.Keys == s.nodes.Keys
    decreases |order|
  {
    hide BindTurn;
    hide Outcome;
    if |order| == 0 {
      NothingDone(s, failed);
    } else {
      var id := Last(order);
      assert id in order && forall k :: k in Init(order) ==> k in order;
      RoundOutcome(t, sel, s, Init(order), home, failed);
      var a, b := BindAll(t, sel, s, Init(order), home, {}), BindAll(t, sel, s, Init(order), home, failed);
      if !a.stopped {
        TurnOutcome(t, sel, s, a.state, b.state, failed, id, home[id]);
      }
    }
  }

  lemma NothingDone(s: State, failed: set<string>)
    ensures Outcome(s, s, s, failed)
  {
  }

  /** The two states agree on the cores and the node of every bound container. */
  ghost predicate SameBindings(g: State, r: State) {
    forall i :: i in BoundIds(g) && i in r.dockers ==>
      r.dockers[i].memSet == g.dockers[i].memSet && multiset(r.dockers[i].cpuSet) == multiset(g.dockers[i].cpuSet)
  }

  /** A state that differs from a sound one in cores and nodes of entries only is sound exactly when these agree. */
  lemma SoundExactly(t: Topology, s: State, g: State, r: State, failed: set<string>)
    requires Sound(t, g) && Outcome(s, g, r, failed)
    ensures Sound(t, r) <==> SameBindings(g, r)
  {
    assert BoundIds(r) == BoundIds(g);
    assert forall i :: i in s.dockers ==> r.dockers[i].bind == g.dockers[i].bind && r.dockers[i].current == g.dockers[i].current;
    if SameBindings(g, r) {
      forall i | i in BoundIds(r) ensures Placed(t, r, r.dockers[i]) && Sized(r.dockers[i]) {
        PlacedIn(t, g, BoundIds(g), i);
        assert Sized(g.dockers[i]);
        SameSize(r.dockers[i].cpuSet, g.dockers[i].cpuSet);
      }
      TablesSound(t, g, r);
    } else {
      var i :| i in BoundIds(g) && i in r.dockers
               && !(r.dockers[i].memSet == g.dockers[i].memSet && multiset(r.dockers[i].cpuSet) == multiset(g.dockers[i].cpuSet));
      if Sound(t, r) {
        PlacedIn(t, g, BoundIds(g), i);
        PlacedIn(t, r, BoundIds(r), i);
        assert Sized(g.dockers[i]);
        SameHome(t, g, r, i);
      }
    }
  }

  lemma SameSize(a: seq<int>, b: seq<int>)
    requires multiset(a) == multiset(b)
    ensures |a| == |b|
  {
    assert |multiset(a)| == |a| && |multiset(b)| == |b|;
  }

  /** Everything but the placement of the entries carries over. */
  lemma TablesSound(t: Topology, g: State, r: State)
    requires Sound(t, g) && r.clusters == g.clusters && r.nodes == g.nodes && r.dockers.Keys == g.dockers.Keys
    requires BoundIds(r) == BoundIds(g) && forall i :: i in g.dockers ==> r.dockers[i].bind == g.dockers[i].bind
    requires forall i :: i in BoundIds(r) ==> Placed(t, r, r.dockers[i]) && Sized(r.dockers[i])
    ensures Sound(t, r)
  {
    var P := BoundIds(g);
    assert forall k :: CoresSplit(t, g, k) ==> CoresSplit(t, r, k);
    assert forall k :: ClustersSplit(t, g, k) ==> ClustersSplit(t, r, k);
    assert forall i, k :: Holds(r, i, k) <==> Holds(g, i, k);
    OwnedSame(t, g, r, P);
  }

  /** Clusters and cores of a container placed in both states determine its node and its cores. */
  lemma SameHome(t: Topology, g: State, r: State, i: string)
    requires t.Uniform() && r.clusters == g.clusters && r.nodes == g.nodes && i in g.dockers && i in r.dockers
    requires Placed(t, g, g.dockers[i]) && Placed(t, r, r.dockers[i]) && r.dockers[i].bind == g.dockers[i].bind && |g.dockers[i].bind| > 0
    requires NodesOk(t, g)
    ensures r.dockers[i].memSet == g.dockers[i].memSet && multiset(r.dockers[i].cpuSet) == multiset(g.dockers[i].cpuSet)
  {
    var c, m, n := g.dockers[i].bind[0], g.dockers[i].memSet[0], r.dockers[i].memSet[0];
    assert c in g.dockers[i].bind && ClustersSplit(t, g, m) && ClustersSplit(t, g, n);
    SplitFacts(t, g, m);
    SplitFacts(t, g, n);
    ClusterIdsFacts(t, m);
    ClusterIdsFacts(t, n);
    BlocksApart(m, n, t.perNode, c);
  }

  lemma StartSound(t: Topology, sel: Selector, s: State, order: seq<string>, home: map<string, int>)
    requires CanBindAll(t, sel, s, order, home)
    ensures t.Uniform() && forall id :: id in order ==> home[id] in s.nodes
    ensures Sound(t, BindAll(t, sel, s, order, home, {}).state)
  {
    assert t.Uniform();
    forall id | id in order ensures home[id] in s.nodes {
      assert ClustersSplit(t, s, home[id]);
    }
    BindAllKeeps(t, sel, s, order, home);
  }

  /** What the failed containers would have got from the failure-free schedule is what they had before. */
  ghost predicate AsPlanned(s: State, g: State, failed: set<string>)
    requires g.dockers.Keys == s.dockers.Keys
  {
    forall i :: i in failed && i in s.dockers && !s.dockers[i].bound && g.dockers[i].bound ==>
      s.dockers[i].memSet == g.dockers[i].memSet && multiset(s.dockers[i].cpuSet) == multiset(g.dockers[i].cpuSet)
  }

  /** The container is to be bound and its node has enough free clusters. */
  predicate DueAndFits(t: Topology, s: State, id: string, home: int)
    requires t.Uniform() && id in s.dockers
  {
    var d := s.dockers[id];
    !d.bound && d.initial > 0.0 && 0 <= ClustersFor(t, d.initial) <= |NodeAt(s.nodes, home).free|
  }

  /** The cores of the clusters that are selected for the container. */
  ghost function SelectedCores(t: Topology, sel: Selector, s: State, id: string, home: int): seq<int>
    requires t.Uniform() && id in s.dockers && DueAndFits(t, s, id, home)
  {
    var initial := s.dockers[id].initial;
    Filled(t, sel, s.clusters, PickClusters(t, sel, home, NodeAt(s.nodes, home).occupied, ClustersFor(t, initial)), Ceil(initial)).1
  }

  /** The container is on its node and has the cores of the clusters that are selected for it. */
  ghost predicate InPlace(t: Topology, sel: Selector, s: State, id: string, home: int)
    requires t.Uniform() && id in s.dockers && DueAndFits(t, s, id, home)
  {
    s.dockers[id].memSet == [home] && multiset(s.dockers[id].cpuSet) == multiset(SelectedCores(t, sel, s, id, home))
  }

  /** Every container whose bind command fails has, when its turn comes, the node and the cores that the command would give it. */
  ghost predicate FailuresHarmless(t: Topology, sel: Selector, s: State, order: seq<string>, home: map<string, int>, failed: set<string>)
    requires t.Uniform() && forall id :: id in order ==> id in s.dockers && id in home
    decreases |order|
  {
    |order| > 0 ==>
      var id, b := Last(order), BindAll(t, sel, s, Init(order), home, failed);
      && FailuresHarmless(t, sel, s, Init(order), home, failed)
      && (!b.stopped && id in failed && DueAndFits(t, b.state, id, home[id]) ==> InPlace(t, sel, b.state, id, home[id]))
  }

  /** A turn adds the question whether its container, if its command fails, is in place already. */
  lemma TurnAsPlanned(t: Topology, sel: Selector, s: State, g: State, r: State, failed: set<string>, id: string, home: int)
    requires t.Uniform() && Outcome(s, g, r, failed) && id in s.dockers && home in g.nodes
    ensures AsPlanned(s, BindTurn(t, sel, g, id, home, true).state, failed) <==>
            AsPlanned(s, g, failed) && (id in failed && DueAndFits(t, r, id, home) ==> InPlace(t, sel, r, id, home))
  {
    var d := g.dockers[id];
    assert r.dockers[id].bound == d.bound && r.dockers[id].initial == d.initial;
    if DueAndFits(t, g, id, home) {
      var m := ClustersFor(t, d.initial);
      var ids := PickClusters(t, sel, home, NodeAt(g.nodes, home).occupied, m);
      BindTurnWritten(t, sel, g, id, home, m, ids, true);
      var f := Filled(t, sel, g.clusters, ids, Ceil(d.initial));
      hide BindTurn;
      hide PickClusters;
      hide Filled;
      hide ClustersFor;
      hide NodeTaken;
      hide Ceil;
      EntryAsPlanned(s, g, r, failed, id, home, ids, f.1, f.0, NodeTaken(g.nodes, home, ids));
    } else {
      assert BindTurn(t, sel, g, id, home, true).state == g;
    }
  }

  lemma EntryAsPlanned(s: State, g: State, r: State, failed: set<string>, id: string, n: int, ids: seq<int>, xs: seq<int>,
                       clusters: map<int, Cluster>, nodes: map<int, Node>)
    requires Outcome(s, g, r, failed) && id in s.dockers && !g.dockers[id].bound
    ensures AsPlanned(s, State(g.dockers[id := BoundEntry(g.dockers[id], n, ids, xs, true)], clusters, nodes), failed) <==>
            AsPlanned(s, g, failed) &&
            (id in failed ==> r.dockers[id].memSet == [n] && multiset(r.dockers[id].cpuSet) == multiset(xs))
  {
    assert g.dockers[id] == s.dockers[id] == r.dockers[id];
    var q := State(g.dockers[id := BoundEntry(g.dockers[id], n, ids, xs, true)], clusters, nodes);
    assert forall i :: i in s.dockers && i != id ==> q.dockers[i] == g.dockers[i];
  }

  lemma {:induction false} HarmlessAsPlanned(t: Topology, sel: Selector, s: State, order: seq<string>, home: map<string, int>, failed: set<string>)
    requires t.Uniform() && forall id :: id in order ==> id in s.dockers && id in home && home[id] in s.nodes
    ensures AsPlanned(s, BindAll(t, sel, s, order, home, {}).state, failed) <==> FailuresHarmless(t, sel, s, order, home, failed)
    decreases |order|
  {
    hide BindTurn;
    hide Outcome;
    hide DueAndFits;
    hide InPlace;
    if |order| > 0 {
      var id := Last(order);
      assert id in order && forall k :: k in Init(order) ==> k in order;
      HarmlessAsPlanned(t, sel, s, Init(order), home, failed);
      RoundOutcome(t, sel, s, Init(order), home, failed);
      var a, b := BindAll(t, sel, s, Init(order), home, {}), BindAll(t, sel, s, Init(order), home, failed);
      hide AsPlanned;
      if !a.stopped {
        TurnAsPlanned(t, sel, s, a.state, b.state, failed, id, home[id]);
      }
    }
  }

  /** A schedule without its failures keeps the state sound; with them it does exactly when the failures are harmless. */
  lemma BindRoundExactly(t: Topology, sel: Selector, s: State, order: seq<string>, home: map<string, int>, failed: set<string>)
    requires CanBindAll(t, sel, s, order, home)
    ensures t.Uniform()
    ensures Sound(t, BindAll(t, sel, s, order, home, {}).state)
    ensures Sound(t, BindAll(t, sel, s, order, home, failed).state) <==> FailuresHarmless(t, sel, s, order, home, failed)
  {
    StartSound(t, sel, s, order, home);
    RoundOutcome(t, sel, s, order, home, failed);
    HarmlessAsPlanned(t, sel, s, order, home, failed);
    hide FailuresHarmless;
    var g, r := BindAll(t, sel, s, order, home, {}).state, BindAll(t, sel, s, order, home, failed).state;
    hide BindAll;
    SoundExactly(t, s, g, r, failed);
    hide Sound;
    hide CanBindAll;
    PlannedBindings(s, g, r, failed);
  }

  lemma PlannedBindings(s: State, g: State, r: State, failed: set<string>)
    requires Outcome(s, g, r, failed)
    ensures SameBindings(g, r) <==> AsPlanned(s, g, failed)
  {
    forall i | i in s.dockers ensures r.dockers[i] == Resulting(s.dockers[i], g.dockers[i], i in failed) {
    }
    if SameBindings(g, r) {
      forall i | i in failed && i in s.dockers && !s.dockers[i].bound && g.dockers[i].bound
        ensures s.dockers[i].memSet == g.dockers[i].memSet && multiset(s.dockers[i].cpuSet) == multiset(g.dockers[i].cpuSet)
      {
        assert i in BoundIds(g);
      }
    }
  }

  /** Each turn can be made, and extends the round, whatever commands have failed before. */
  lemma BindAllReady(t: Topology, sel: Selector, s: State, order: seq<string>, home: map<string, int>, failed: set<string>, i: nat)
    requires CanBindAll(t, sel, s, order, home) && i < |order|
    ensures t.Uniform() && (forall id :: id in order[..i] ==> id in s.dockers && id in home)
    ensures (forall id :: id in order[..i + 1] ==> id in s.dockers && id in home) && order[i] in home && order[i] in s.dockers
    ensures var b := BindAll(t, sel, s, order[..i], home, failed);
            && BindAll(t, sel, s, order[..i + 1], home, failed) ==
                 (if b.stopped then b else BindTurn(t, sel, b.state, order[i], home[order[i]], order[i] !in failed))
            && BindTurnReady(t, b.state, order[i], home[order[i]])
  {
    assert t.Uniform();
    var ids, before := order[..i + 1], order[..i];
    assert Init(ids) == before && Last(ids) == order[i] && ids == before + [order[i]];
    assert forall id :: id in before || id in ids ==> id in order;
    assert CanBindAll(t, sel, s, before, home);
    StartSound(t, sel, s, before, home);
    RoundOutcome(t, sel, s, before, home, failed);
    var g, r := BindAll(t, sel, s, before, home, {}).state, BindAll(t, sel, s, before, home, failed).state;
    hide Sound;
    hide BindTurn;
    CanBindFits(t, g, order[i], home[order[i]]);
    ReadyAnyway(t, s, g, r, failed, order[i], home[order[i]]);
    hide BindTurnReady;
    hide Outcome;
  }

  lemma ReadyAnyway(t: Topology, s: State, g: State, r: State, failed: set<string>, id: string, home: int)
    requires Outcome(s, g, r, failed) && BindTurnReady(t, g, id, home)
    ensures BindTurnReady(t, r, id, home)
  {
    var d, e := g.dockers[id], r.dockers[id];
    assert e.bound == d.bound && e.initial == d.initial;
    if !e.bound && e.initial > 0.0 {
      var m := ClustersFor(t, e.initial);
      hide ClustersFor;
      if m <= |NodeAt(r.nodes, home).free| {
        assert CanBind(t, g, id, home, m);
        assert ClustersSplit(t, g, home) ==> ClustersSplit(t, r, home);
      }
    }
  }
}
