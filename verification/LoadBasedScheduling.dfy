/** Splitting a node's CPUs among its busy containers (load_based_scheduling.cpp). */
module LoadBasedScheduling {
  import opened Seqs
  import opened Topologies

  const UNLIMIT: int := -1

  datatype Container = Container(id: string, cpus: seq<int>, totLoad: int, cpuLoad: real)

  /** A container of the round: its node, and whether writing its slice succeeds. */
  datatype Busy = Busy(id: string, node: int, ok: bool)

  /** The slice of a node's CPU list offered to a container. */
  datatype Slice = Slice(id: string, node: int, from: nat, num: nat, ok: bool)

  /** IsHighLoad. */
  predicate IsHighLoad(c: Container, threshold: real) {
    if c.totLoad == UNLIMIT then c.cpuLoad > threshold * |c.cpus| as real else c.cpuLoad > threshold * c.totLoad as real
  }

  // ---------- The nodes ----------

  function CpusAt(nodes: map<int, seq<int>>, n: int): seq<int> {
    if n in nodes then nodes[n] else []
  }

  ghost predicate Once(s: seq<int>) {
    forall i, j :: 0 <= i < j < |s| ==> s[i] != s[j]
  }

  /** No CPU is listed twice, on one node or on two. */
  ghost predicate EachOnce(nodes: map<int, seq<int>>) {
    && (forall n :: Once(CpusAt(nodes, n)))
    && forall m, n, c :: m != n && c in CpusAt(nodes, m) ==> c !in CpusAt(nodes, n)
  }

  lemma NodesApart(nodes: map<int, seq<int>>, m: int, n: int, c: int)
    requires EachOnce(nodes) && c in CpusAt(nodes, m) && m != n
    ensures c !in CpusAt(nodes, n)
  {
  }

  /** The CPUs of node n by one static record, which gives the node of each CPU. */
  function ListedIn(record: seq<int>, n: int): seq<int> {
    if |record| == 0 then [] else ListedIn(Init(record), n) + (if Last(record) == n then [|record| - 1] else [])
  }

  /** ... and by all records of a message. */
  function Listed(records: seq<seq<int>>, n: int): seq<int> {
    if |records| == 0 then [] else Listed(Init(records), n) + ListedIn(Last(records), n)
  }

  /** The node of a CPU by the last record that has it. */
  function NodeBy(records: seq<seq<int>>, c: int): Option<int> {
    if |records| == 0 then None
    else if 0 <= c < |Last(records)| then Some(Last(records)[c])
    else NodeBy(Init(records), c)
  }

  /** The record with the last say on CPU c. */
  ghost predicate LastSay(records: seq<seq<int>>, i: nat, c: int) {
    i < |records| && 0 <= c < |records[i]| && forall j :: i < j < |records| ==> c >= |records[j]|
  }

  lemma {:induction false} NodeByMeaning(records: seq<seq<int>>, c: int, n: int)
    ensures NodeBy(records, c) == Some(n) <==> exists i: nat :: LastSay(records, i, c) && records[i][c] == n
    decreases |records|
  {
    if |records| > 0 {
      var k := |records| - 1;
      if 0 <= c < |Last(records)| {
        assert LastSay(records, k, c);
        assert forall i: nat :: LastSay(records, i, c) ==> i == k;
      } else {
        NodeByMeaning(Init(records), c, n);
        forall i: nat ensures LastSay(records, i, c) <==> c >= 0 && LastSay(Init(records), i, c) {
          if LastSay(Init(records), i, c) {
            assert records[i] == Init(records)[i];
          }
        }
      }
    }
  }

  lemma {:induction false} ListedInFacts(record: seq<int>, n: int)
    ensures Once(ListedIn(record, n)) && forall c :: c in ListedIn(record, n) <==> 0 <= c < |record| && record[c] == n
    ensures forall i, j :: 0 <= i < j < |ListedIn(record, n)| ==> ListedIn(record, n)[i] < ListedIn(record, n)[j]
    decreases |record|
  {
    if |record| > 0 {
      ListedInFacts(Init(record), n);
      var before := ListedIn(Init(record), n);
      forall i | 0 <= i < |before| ensures before[i] < |record| - 1 {
        assert before[i] in before;
      }
      forall c ensures c in ListedIn(record, n) <==> 0 <= c < |record| && record[c] == n {
        assert c in ListedIn(Init(record), n) <==> 0 <= c < |Init(record)| && Init(record)[c] == n;
      }
    }
  }

  ghost predicate AtMostOne(records: seq<seq<int>>) {
    forall i, j :: 0 <= i < j < |records| ==> records[i] == [] || records[j] == []
  }

  /** With at most one record that names CPUs, the lists are those of that record. */
  lemma {:induction false} ListedByOne(records: seq<seq<int>>) returns (record: seq<int>)
    requires AtMostOne(records)
    ensures forall n :: Listed(records, n) == ListedIn(record, n)
    ensures if forall i :: 0 <= i < |records| ==> records[i] == [] then record == [] else record in records && record != []
    decreases |records|
  {
    if |records| == 0 {
      record := [];
    } else {
      record := ListedByOne(Init(records));
      if Last(records) != [] {
        assert forall i :: 0 <= i < |records| - 1 ==> Init(records)[i] == records[i] == [];
        record := Last(records);
        assert forall n :: [] + ListedIn(record, n) == ListedIn(record, n);
      } else {
        assert forall n :: Listed(records, n) == Listed(Init(records), n) + [];
      }
    }
  }

  lemma {:induction false} FirstCpuListed(records: seq<seq<int>>, i: nat)
    requires i < |records| && records[i] != []
    ensures 0 in Listed(records, records[i][0])
    decreases |records|
  {
    if i < |records| - 1 {
      assert Init(records)[i] == records[i];
      FirstCpuListed(Init(records), i);
    } else {
      ListedInFacts(Last(records), records[i][0]);
    }
  }

  lemma {:induction false} FirstCpuTwice(records: seq<seq<int>>, i: nat, j: nat)
    requires i < j < |records| && records[i] != [] && records[j] != [] && records[i][0] == records[j][0]
    ensures !Once(Listed(records, records[i][0]))
    decreases |records|
  {
    var n := records[i][0];
    var before, more := Listed(Init(records), n), ListedIn(Last(records), n);
    assert Init(records)[i] == records[i];
    if j < |records| - 1 {
      assert Init(records)[j] == records[j];
      FirstCpuTwice(Init(records), i, j);
      var p, q :| 0 <= p < q < |before| && before[p] == before[q];
      assert (before + more)[p] == (before + more)[q];
    } else {
      FirstCpuListed(Init(records), i);
      ListedInFacts(Last(records), n);
      var p, q :| 0 <= p < |before| && 0 <= q < |more| && before[p] == 0 && more[q] == 0;
      assert (before + more)[p] == (before + more)[|before| + q];
    }
  }

  lemma OneRecordApart(record: seq<int>, nodes: map<int, seq<int>>)
    requires forall n :: CpusAt(nodes, n) == ListedIn(record, n)
    ensures EachOnce(nodes)
  {
    hide CpusAt;
    forall n ensures Once(CpusAt(nodes, n)) && forall c :: c in CpusAt(nodes, n) <==> 0 <= c < |record| && record[c] == n {
      ListedInFacts(record, n);
      hide ListedIn;
      hide Once;
    }
    hide ListedIn;
    hide Once;
  }

  lemma TwoRecordsClash(records: seq<seq<int>>, nodes: map<int, seq<int>>, i: nat, j: nat)
    requires forall n :: CpusAt(nodes, n) == Listed(records, n)
    requires i < j < |records| && records[i] != [] && records[j] != []
    ensures !EachOnce(nodes)
  {
    hide CpusAt;
    hide Listed;
    FirstCpuListed(records, i);
    FirstCpuListed(records, j);
    var m, n := records[i][0], records[j][0];
    if m == n {
      FirstCpuTwice(records, i, j);
      assert !Once(CpusAt(nodes, m));
    } else {
      assert 0 in CpusAt(nodes, m) && 0 in CpusAt(nodes, n);
    }
    hide Once;
  }

  /** The lists keep CPUs apart exactly when at most one record of the message names CPUs. */
  lemma EachOnceExactly(records: seq<seq<int>>, nodes: map<int, seq<int>>)
    requires forall n :: CpusAt(nodes, n) == Listed(records, n)
    ensures EachOnce(nodes) <==> AtMostOne(records)
  {
    hide EachOnce;
    hide Listed;
    hide ListedIn;
    hide CpusAt;
    if AtMostOne(records) {
      var record := ListedByOne(records);
      OneRecordApart(record, nodes);
    } else {
      var i, j :| 0 <= i < j < |records| && records[i] != [] && records[j] != [];
      TwoRecordsClash(records, nodes, i, j);
    }
  }


  /** The lists have grown by the CPUs of a record. */
  ghost predicate Grown(nodes: map<int, seq<int>>, after: map<int, seq<int>>, record: seq<int>) {
    forall n :: CpusAt(after, n) == CpusAt(nodes, n) + ListedIn(record, n)
  }

  ghost predicate GrownBy(nodes: map<int, seq<int>>, after: map<int, seq<int>>, records: seq<seq<int>>) {
    forall n :: CpusAt(after, n) == CpusAt(nodes, n) + Listed(records, n)
  }

  lemma GrowsByCpu(nodes: map<int, seq<int>>, after: map<int, seq<int>>, record: seq<int>, cpu: nat)
    requires cpu < |record| && Grown(nodes, after, record[..cpu])
    ensures Grown(nodes, after[record[cpu] := CpusAt(after, record[cpu]) + [cpu]], record[..cpu + 1])
  {
    var node, before := record[cpu], record[..cpu];
    assert Init(record[..cpu + 1]) == before && Last(record[..cpu + 1]) == node;
    var more := after[node := CpusAt(after, node) + [cpu]];
    forall n ensures CpusAt(more, n) == CpusAt(nodes, n) + ListedIn(record[..cpu + 1], n) {
      assert CpusAt(after, n) == CpusAt(nodes, n) + ListedIn(before, n);
      assert CpusAt(nodes, n) + (ListedIn(before, n) + [cpu]) == CpusAt(nodes, n) + ListedIn(before, n) + [cpu];
    }
  }

  lemma GrowsByRecord(nodes: map<int, seq<int>>, before: map<int, seq<int>>, after: map<int, seq<int>>, records: seq<seq<int>>, i: nat)
    requires i < |records| && GrownBy(nodes, before, records[..i]) && Grown(before, after, records[i])
    ensures GrownBy(nodes, after, records[..i + 1])
  {
    assert Init(records[..i + 1]) == records[..i] && Last(records[..i + 1]) == records[i];
    forall n ensures CpusAt(after, n) == CpusAt(nodes, n) + Listed(records[..i + 1], n) {
      assert CpusAt(before, n) == CpusAt(nodes, n) + Listed(records[..i], n);
    }
  }

  /** The nodes of the CPUs as the records have them. */
  ghost predicate Known(cpuNuma: map<int, int>, records: seq<seq<int>>) {
    forall c :: NodeBy(records, c) == if c in cpuNuma then Some(cpuNuma[c]) else None
  }

  /** The record overrides what was known of its CPUs. */
  ghost predicate Overridden(before: map<int, int>, after: map<int, int>, record: seq<int>) {
    && (forall c :: c in after <==> c in before || 0 <= c < |record|)
    && forall c :: c in after ==> after[c] == if 0 <= c < |record| then record[c] else before[c]
  }

  lemma OverriddenByCpu(before: map<int, int>, after: map<int, int>, record: seq<int>, cpu: nat)
    requires cpu < |record| && Overridden(before, after, record[..cpu])
    ensures Overridden(before, after[cpu := record[cpu]], record[..cpu + 1])
  {
  }

  lemma KnownByRecord(before: map<int, int>, after: map<int, int>, records: seq<seq<int>>, i: nat)
    requires i < |records| && Known(before, records[..i]) && Overridden(before, after, records[i])
    ensures Known(after, records[..i + 1])
  {
    assert Init(records[..i + 1]) == records[..i] && Last(records[..i + 1]) == records[i];
  }

  // ---------- A round ----------

  /** Busy containers of a node. */
  function Count(busy: seq<Busy>, n: int): nat {
    if |busy| == 0 then 0 else Count(Init(busy), n) + (if Last(busy).node == n then 1 else 0)
  }

  /** Those whose write succeeded. */
  function Written(busy: seq<Busy>, n: int): nat {
    if |busy| == 0 then 0 else Written(Init(busy), n) + (if Last(busy).node == n && Last(busy).ok then 1 else 0)
  }

  /** What each busy container of a node is offered. */
  function Share(nodes: map<int, seq<int>>, busy: seq<Busy>, n: int): nat {
    if Count(busy, n) == 0 then 0 else |CpusAt(nodes, n)| / Count(busy, n)
  }

  /** Where the slices of node n go on after i containers: every write moves on by the share. */
  function Start(nodes: map<int, seq<int>>, busy: seq<Busy>, i: nat, n: int): nat
    requires i <= |busy|
  {
    Written(busy[..i], n) * Share(nodes, busy, n)
  }

  /** Container i gets the slice behind those written before it. */
  function SliceOf(nodes: map<int, seq<int>>, busy: seq<Busy>, i: nat): Slice
    requires i < |busy|
  {
    var n := busy[i].node;
    Slice(busy[i].id, n, Start(nodes, busy, i, n), Share(nodes, busy, n), busy[i].ok)
  }

  lemma {:induction false} CountSplit(busy: seq<Busy>, i: nat, n: int)
    requires i <= |busy|
    ensures Written(busy[..i], n) <= Count(busy[..i], n) <= Count(busy, n)
    decreases |busy|
  {
    if i == |busy| {
      assert busy[..i] == busy;
      WrittenWithin(busy, n);
    } else {
      assert Init(busy)[..i] == busy[..i];
      CountSplit(Init(busy), i, n);
    }
  }

  lemma {:induction false} WrittenWithin(busy: seq<Busy>, n: int)
    ensures Written(busy, n) <= Count(busy, n)
    ensures (forall i :: 0 <= i < |busy| ==> busy[i].ok) ==> Written(busy, n) == Count(busy, n)
    decreases |busy|
  {
    if |busy| > 0 {
      WrittenWithin(Init(busy), n);
    }
  }

  lemma Step(busy: seq<Busy>, i: nat)
    requires i < |busy|
    ensures Init(busy[..i + 1]) == busy[..i] && Last(busy[..i + 1]) == busy[i]
  {
  }

  lemma {:induction false} WrittenGrows(busy: seq<Busy>, i: nat, j: nat)
    requires i < j <= |busy| && busy[i].ok
    ensures Written(busy[..i], busy[i].node) + 1 <= Written(busy[..j], busy[i].node)
    decreases j
  {
    Step(busy, j - 1);
    if i < j - 1 {
      WrittenGrows(busy, i, j - 1);
    }
  }

  /** Every slice lies within its node's list. */
  lemma SlicesInRange(nodes: map<int, seq<int>>, busy: seq<Busy>, i: nat)
    requires i < |busy|
    ensures var s := SliceOf(nodes, busy, i); s.from + s.num <= |CpusAt(nodes, s.node)|
  {
    var n := busy[i].node;
    Step(busy, i);
    CountSplit(busy, i, n);
    CountSplit(busy, i + 1, n);
    RoomForOneMore(Written(busy[..i], n), Count(busy, n), |CpusAt(nodes, n)|);
    hide Count;
    hide Written;
  }

  lemma RoomForOneMore(w: nat, count: nat, size: nat)
    requires w < count
    ensures w * (size / count) + size / count <= size
  {
    var share := size / count;
    MulLe(w + 1, count, share);
    assert (w + 1) * share == w * share + share;
    EuclidFact(size, count);
    Commute(share, count);
  }

  lemma Commute(a: int, b: int)
    ensures a * b == b * a
  {
  }

  /** The CPUs of a slice. */
  function CpusOf(nodes: map<int, seq<int>>, s: Slice): seq<int>
    requires s.from + s.num <= |CpusAt(nodes, s.node)|
  {
    CpusAt(nodes, s.node)[s.from..s.from + s.num]
  }

  /** Slices written in the same round share no CPU, on one node or on two. */
  lemma SlicesDisjoint(nodes: map<int, seq<int>>, busy: seq<Busy>, i: nat, j: nat, c: int)
    requires EachOnce(nodes) && i < j < |busy| && busy[i].ok && busy[j].ok
    requires var s := SliceOf(nodes, busy, i); s.from + s.num <= |CpusAt(nodes, s.node)| && c in CpusOf(nodes, s)
    ensures var s := SliceOf(nodes, busy, j); s.from + s.num <= |CpusAt(nodes, s.node)| && c !in CpusOf(nodes, s)
  {
    SlicesInRange(nodes, busy, j);
    var a, b := SliceOf(nodes, busy, i), SliceOf(nodes, busy, j);
    if a.node == b.node {
      SlicesInOrder(nodes, busy, i, j);
      assert Once(CpusAt(nodes, a.node));
      ApartInList(CpusAt(nodes, a.node), a.from, a.num, b.from, b.num, c);
    } else {
      NodesApart(nodes, a.node, b.node, c);
    }
    hide SliceOf;
    hide EachOnce;
  }

  /** A slice written on the same node before starts where this one has not yet begun. */
  lemma SlicesInOrder(nodes: map<int, seq<int>>, busy: seq<Busy>, i: nat, j: nat)
    requires i < j < |busy| && busy[i].ok && busy[i].node == busy[j].node
    ensures SliceOf(nodes, busy, i).from + SliceOf(nodes, busy, i).num <= SliceOf(nodes, busy, j).from
  {
    var n := busy[i].node;
    WrittenGrows(busy, i, j);
    var a, b, share := Written(busy[..i], n), Written(busy[..j], n), Share(nodes, busy, n);
    MulLe(a + 1, b, share);
    assert (a + 1) * share == a * share + share;
  }

  lemma ApartInList(xs: seq<int>, a: nat, m: nat, b: nat, n: nat, c: int)
    requires Once(xs) && a + m <= b && b + n <= |xs| && c in xs[a..a + m]
    ensures c !in xs[b..b + n]
  {
    var p :| 0 <= p < m && xs[a..a + m][p] == c;
    assert xs[a + p] == c;
    forall r | b <= r < b + n ensures xs[r] != c {
      assert a + p < r;
    }
  }

  /** When all writes succeed, fewer CPUs of a node are left over than it has busy containers. */
  lemma FewLeftOver(nodes: map<int, seq<int>>, busy: seq<Busy>, n: int)
    requires Count(busy, n) > 0 && forall i :: 0 <= i < |busy| ==> busy[i].ok
    ensures var used := Written(busy, n) * Share(nodes, busy, n);
            0 <= |CpusAt(nodes, n)| - used < Count(busy, n)
  {
    WrittenWithin(busy, n);
    EuclidFact(|CpusAt(nodes, n)|, Count(busy, n));
    Commute(Share(nodes, busy, n), Count(busy, n));
  }

  function NodeOf(cpuNuma: map<int, int>, cpu: int): int {
    if cpu in cpuNuma then cpuNuma[cpu] else 0
  }

  /** The busy containers in the order of the source's loop, with the outcome of each write. */
  function BusyOf(cpuNuma: map<int, int>, threshold: real, containers: seq<Container>, writes: map<string, bool>): seq<Busy>
    requires forall c :: c in containers ==> |c.cpus| > 0
  {
    if |containers| == 0 then []
    else
      var c := Last(containers);
      assert c in containers && forall d :: d in Init(containers) ==> d in containers;
      BusyOf(cpuNuma, threshold, Init(containers), writes) +
      (if IsHighLoad(c, threshold) then [Busy(c.id, NodeOf(cpuNuma, c.cpus[0]), c.id in writes && writes[c.id])] else [])
  }

  // ---------- What a round offers to whom ----------

  /** The load exceeds the threshold's part of the limit, or of the number of CPUs when the limit is -1. */
  predicate Overloaded(c: Container, threshold: real) {
    c.cpuLoad > threshold * (if c.totLoad == -1 then |c.cpus| else c.totLoad) as real
  }

  /** `pos` are the positions of the overloaded containers, in order. */
  ghost predicate Positions(containers: seq<Container>, threshold: real, pos: seq<nat>) {
    && (forall i :: 0 <= i < |pos| ==> pos[i] < |containers| && Overloaded(containers[pos[i]], threshold))
    && (forall i, j :: 0 <= i < j < |pos| ==> pos[i] < pos[j])
    && forall k :: 0 <= k < |containers| && Overloaded(containers[k], threshold) ==> k in pos
  }

  /** The container's entry in the round: its node is that of its first CPU. */
  predicate EntryOf(cpuNuma: map<int, int>, writes: map<string, bool>, c: Container, b: Busy) {
    && b.id == c.id && (b.ok <==> c.id in writes && writes[c.id])
    && |c.cpus| > 0 && b.node == if c.cpus[0] in cpuNuma then cpuNuma[c.cpus[0]] else 0
  }

  lemma PositionsMore(containers: seq<Container>, threshold: real, pos: seq<nat>)
    requires |containers| > 0 && Positions(Init(containers), threshold, pos)
    ensures Positions(containers, threshold, if Overloaded(Last(containers), threshold) then pos + [|containers| - 1] else pos)
  {
    hide Overloaded;
    var more := if Overloaded(Last(containers), threshold) then pos + [|containers| - 1] else pos;
    forall k | 0 <= k < |containers| && Overloaded(containers[k], threshold) ensures k in more {
      if k < |containers| - 1 {
        assert Init(containers)[k] == containers[k] && k in pos;
      } else {
        assert more[|more| - 1] == k;
      }
    }
  }

  lemma HighIsOverloaded(c: Container, threshold: real)
    ensures IsHighLoad(c, threshold) <==> Overloaded(c, threshold)
  {
  }

  ghost predicate Entries(cpuNuma: map<int, int>, writes: map<string, bool>, containers: seq<Container>, pos: seq<nat>, busy: seq<Busy>) {
    |pos| == |busy| && forall i :: 0 <= i < |pos| ==> pos[i] < |containers| && EntryOf(cpuNuma, writes, containers[pos[i]], busy[i])
  }

  lemma EntriesMore(cpuNuma: map<int, int>, writes: map<string, bool>, containers: seq<Container>, pos: seq<nat>, busy: seq<Busy>, b: Busy)
    requires |containers| > 0 && Entries(cpuNuma, writes, Init(containers), pos, busy)
    ensures Entries(cpuNuma, writes, containers, pos, busy)
    ensures EntryOf(cpuNuma, writes, Last(containers), b) ==> Entries(cpuNuma, writes, containers, pos + [|containers| - 1], busy + [b])
  {
    hide EntryOf;
    assert forall i :: 0 <= i < |pos| ==> Init(containers)[pos[i]] == containers[pos[i]];
  }

  lemma BusyStep(cpuNuma: map<int, int>, threshold: real, containers: seq<Container>, writes: map<string, bool>) returns (b: Busy)
    requires |containers| > 0 && forall c :: c in containers ==> |c.cpus| > 0
    ensures forall c :: c in Init(containers) ==> |c.cpus| > 0
    ensures EntryOf(cpuNuma, writes, Last(containers), b)
    ensures var before := BusyOf(cpuNuma, threshold, Init(containers), writes);
            BusyOf(cpuNuma, threshold, containers, writes) == if Overloaded(Last(containers), threshold) then before + [b] else before
  {
    var c := Last(containers);
    assert c in containers && forall d :: d in Init(containers) ==> d in containers;
    HighIsOverloaded(c, threshold);
    hide IsHighLoad;
    hide Overloaded;
    b := Busy(c.id, NodeOf(cpuNuma, c.cpus[0]), c.id in writes && writes[c.id]);
    var before := BusyOf(cpuNuma, threshold, Init(containers), writes);
    assert before + [] == before;
  }

  lemma {:induction false} BusyAre(cpuNuma: map<int, int>, threshold: real, containers: seq<Container>, writes: map<string, bool>) returns (pos: seq<nat>)
    requires forall c :: c in containers ==> |c.cpus| > 0
    ensures Positions(containers, threshold, pos)
    ensures Entries(cpuNuma, writes, containers, pos, BusyOf(cpuNuma, threshold, containers, writes))
    decreases |containers|
  {
    pos := [];
    if |containers| > 0 {
      hide Overloaded;
      hide Positions;
      hide Entries;
      hide BusyOf;
      hide EntryOf;
      var b := BusyStep(cpuNuma, threshold, containers, writes);
      pos := BusyAre(cpuNuma, threshold, Init(containers), writes);
      PositionsMore(containers, threshold, pos);
      EntriesMore(cpuNuma, writes, containers, pos, BusyOf(cpuNuma, threshold, Init(containers), writes), b);
      if Overloaded(Last(containers), threshold) {
        pos := pos + [|containers| - 1];
      }
    }
  }

  /** The slices of node n among the first i. */
  ghost function SlicesOn(slices: seq<Slice>, i: nat, n: int): set<nat>
    requires i <= |slices|
  {
    set j: nat | j < i && slices[j].node == n
  }

  ghost function WrittenOn(slices: seq<Slice>, i: nat, n: int): set<nat>
    requires i <= |slices|
  {
    set j: nat | j < i && slices[j].node == n && slices[j].ok
  }

  /** The slices of a round are as specified. */
  ghost predicate SlicesOf(nodes: map<int, seq<int>>, busy: seq<Busy>, slices: seq<Slice>) {
    |slices| == |busy| && forall i :: 0 <= i < |busy| ==> slices[i] == SliceOf(nodes, busy, i)
  }

  lemma OneMoreSlice(slices: seq<Slice>, j: nat, n: int)
    requires j < |slices|
    ensures |SlicesOn(slices, j + 1, n)| == |SlicesOn(slices, j, n)| + (if slices[j].node == n then 1 else 0)
    ensures |WrittenOn(slices, j + 1, n)| == |WrittenOn(slices, j, n)| + (if slices[j].node == n && slices[j].ok then 1 else 0)
  {
    assert SlicesOn(slices, j + 1, n) == SlicesOn(slices, j, n) + (if slices[j].node == n then {j} else {});
    assert WrittenOn(slices, j + 1, n) == WrittenOn(slices, j, n) + (if slices[j].node == n && slices[j].ok then {j} else {});
  }

  lemma {:induction false} CountsAre(nodes: map<int, seq<int>>, busy: seq<Busy>, slices: seq<Slice>, i: nat, n: int)
    requires SlicesOf(nodes, busy, slices) && i <= |busy|
    ensures Count(busy[..i], n) == |SlicesOn(slices, i, n)| && Written(busy[..i], n) == |WrittenOn(slices, i, n)|
    decreases i
  {
    if i == 0 {
      assert SlicesOn(slices, i, n) == {} && WrittenOn(slices, i, n) == {};
    } else {
      assert slices[i - 1].node == busy[i - 1].node && slices[i - 1].ok == busy[i - 1].ok;
      hide SlicesOf;
      hide SlicesOn;
      hide WrittenOn;
      CountsAre(nodes, busy, slices, i - 1, n);
      Step(busy, i - 1);
      OneMoreSlice(slices, i - 1, n);
    }
  }

  /** A slice for the container: an equal share of its node's list, behind the slices of the node written before. */
  ghost predicate SliceFor(cpuNuma: map<int, int>, nodes: map<int, seq<int>>, writes: map<string, bool>, slices: seq<Slice>, i: nat, c: Container)
    requires i < |slices|
  {
    var s := slices[i];
    var cpus := if s.node in nodes then |nodes[s.node]| else 0;
    && EntryOf(cpuNuma, writes, c, Busy(s.id, s.node, s.ok))
    && |SlicesOn(slices, |slices|, s.node)| > 0 && s.num == cpus / |SlicesOn(slices, |slices|, s.node)|
    && s.from == s.num * |WrittenOn(slices, i, s.node)|
  }

  /** The slices of a round are offered to exactly the overloaded containers, in their order. */
  lemma OffersMeaning(cpuNuma: map<int, int>, nodes: map<int, seq<int>>, threshold: real, containers: seq<Container>, writes: map<string, bool>,
                      slices: seq<Slice>) returns (pos: seq<nat>)
    requires forall c :: c in containers ==> |c.cpus| > 0
    requires SlicesOf(nodes, BusyOf(cpuNuma, threshold, containers, writes), slices)
    ensures Positions(containers, threshold, pos) && |pos| == |slices|
    ensures forall i :: 0 <= i < |pos| ==> SliceFor(cpuNuma, nodes, writes, slices, i, containers[pos[i]])
  {
    pos := BusyAre(cpuNuma, threshold, containers, writes);
    var busy := BusyOf(cpuNuma, threshold, containers, writes);
    hide BusyOf;
    hide Positions;
    forall i | 0 <= i < |pos| ensures SliceFor(cpuNuma, nodes, writes, slices, i, containers[pos[i]]) {
      SliceMeaning(cpuNuma, nodes, writes, busy, slices, i, containers[pos[i]]);
    }
  }

  lemma SliceMeaning(cpuNuma: map<int, int>, nodes: map<int, seq<int>>, writes: map<string, bool>, busy: seq<Busy>, slices: seq<Slice>, i: nat,
                     c: Container)
    requires SlicesOf(nodes, busy, slices) && i < |busy| && EntryOf(cpuNuma, writes, c, busy[i])
    ensures SliceFor(cpuNuma, nodes, writes, slices, i, c)
  {
    var n := busy[i].node;
    assert slices[i] == SliceOf(nodes, busy, i);
    CountsAre(nodes, busy, slices, i, n);
    CountsAre(nodes, busy, slices, |busy|, n);
    assert busy[..|busy|] == busy;
    assert i in SlicesOn(slices, |slices|, n);
    Commute(Written(busy[..i], n), Share(nodes, busy, n));
    hide Count;
    hide Written;
  }

  /** When no two containers have the same name, one of them has exactly one slice if it is overloaded, and none otherwise. */
  lemma OneSliceEach(cpuNuma: map<int, int>, nodes: map<int, seq<int>>, threshold: real, containers: seq<Container>, writes: map<string, bool>,
                     slices: seq<Slice>, k: nat)
    requires forall c :: c in containers ==> |c.cpus| > 0
    requires SlicesOf(nodes, BusyOf(cpuNuma, threshold, containers, writes), slices)
    requires k < |containers| && forall i, j :: 0 <= i < j < |containers| ==> containers[i].id != containers[j].id
    ensures (exists i :: 0 <= i < |slices| && slices[i].id == containers[k].id) <==> Overloaded(containers[k], threshold)
    ensures forall i, j :: 0 <= i < j < |slices| ==> slices[i].id != slices[j].id
  {
    var pos := OffersMeaning(cpuNuma, nodes, threshold, containers, writes, slices);
    hide BusyOf;
    hide SlicesOf;
    hide Overloaded;
    assert forall i :: 0 <= i < |pos| ==> SliceFor(cpuNuma, nodes, writes, slices, i, containers[pos[i]]) && slices[i].id == containers[pos[i]].id;
    if Overloaded(containers[k], threshold) {
      var i :| 0 <= i < |pos| && pos[i] == k;
      assert slices[i].id == containers[k].id;
    }
    if i :| 0 <= i < |slices| && slices[i].id == containers[k].id {
      assert pos[i] == k;
    }
    forall i, j | 0 <= i < j < |slices| ensures slices[i].id != slices[j].id {
      assert pos[i] < pos[j];
    }
    hide SliceFor;
  }

  function At(m: map<int, int>, n: int): int {
    if n in m then m[n] else 0
  }

  /** Where the next slice of each node starts after i containers. */
  ghost predicate Used(nodes: map<int, seq<int>>, busy: seq<Busy>, i: nat, usedIndex: map<int, int>)
    requires i <= |busy|
  {
    forall n :: At(usedIndex, n) == Start(nodes, busy, i, n)
  }

  lemma UsedStep(nodes: map<int, seq<int>>, busy: seq<Busy>, i: nat, usedIndex: map<int, int>)
    requires i < |busy| && Used(nodes, busy, i, usedIndex)
    ensures var b := busy[i];
            && Count(busy, b.node) >= 1
            && var from, num := At(usedIndex, b.node), |CpusAt(nodes, b.node)| / Count(busy, b.node);
            && from >= 0 && num >= 0 && SliceOf(nodes, busy, i) == Slice(b.id, b.node, from, num, b.ok)
            && Used(nodes, busy, i + 1, if b.ok then usedIndex[b.node := from + num] else usedIndex)
  {
    var b := busy[i];
    Step(busy, i);
    CountSplit(busy, i + 1, b.node);
    var after := if b.ok then usedIndex[b.node := At(usedIndex, b.node) + Share(nodes, busy, b.node)] else usedIndex;
    assert At(usedIndex, b.node) == Start(nodes, busy, i, b.node);
    hide Share;
    hide Start;
    hide Count;
    forall n ensures At(after, n) == Start(nodes, busy, i + 1, n) {
      assert At(usedIndex, n) == Start(nodes, busy, i, n);
      StartStep(nodes, busy, i, n);
    }
  }

  lemma StartStep(nodes: map<int, seq<int>>, busy: seq<Busy>, i: nat, n: int)
    requires i < |busy|
    ensures Start(nodes, busy, i + 1, n) == Start(nodes, busy, i, n) + (if busy[i].node == n && busy[i].ok then Share(nodes, busy, n) else 0)
  {
    hide Share;
    Step(busy, i);
    var w, num := Written(busy[..i], n), Share(nodes, busy, n);
    assert (w + 1) * num == w * num + num;
  }

  // ---------- The plugin ----------

  class LoadBasedScheduling {
    var cpuNuma: map<int, int>
    var nodes: map<int, seq<int>>
    const highLoadThreshold: real
    var containerNum: map<int, int>
    var usedIndex: map<int, int>

    /** UpdateNumaInfo: the first records that name CPUs are kept for good; a record gives the node of each CPU. */
    method UpdateNumaInfo(records: seq<seq<int>>)
      modifies this`cpuNuma, this`nodes
      ensures old(cpuNuma) != map[] ==> cpuNuma == old(cpuNuma) && nodes == old(nodes)
      ensures old(cpuNuma) == map[] ==> Known(cpuNuma, records) && GrownBy(old(nodes), nodes, records)
    {
      if cpuNuma != map[] {
        return;
      }
      for i := 0 to |records|
        invariant Known(cpuNuma, records[..i]) && GrownBy(old(nodes), nodes, records[..i])
      {
        ghost var numa0, nodes0 := cpuNuma, nodes;
        hide Known;
        hide Overridden;
        hide Grown;
        hide GrownBy;
        ReadRecord(records[i]);
        KnownByRecord(numa0, cpuNuma, records, i);
        GrowsByRecord(old(nodes), nodes0, nodes, records, i);
      }
      assert records[..|records|] == records;
    }

    /** The inner loop: one record. */
    method ReadRecord(record: seq<int>)
      modifies this`cpuNuma, this`nodes
      ensures Overridden(old(cpuNuma), cpuNuma, record) && Grown(old(nodes), nodes, record)
    {
      for cpu := 0 to |record|
        invariant Overridden(old(cpuNuma), cpuNuma, record[..cpu]) && Grown(old(nodes), nodes, record[..cpu])
      {
        hide Grown;
        hide Overridden;
        var node := record[cpu];
        GrowsByCpu(old(nodes), nodes, record, cpu);
        OverriddenByCpu(old(cpuNuma), cpuNuma, record, cpu);
        cpuNuma := cpuNuma[cpu := node];
        nodes := nodes[node := CpusAt(nodes, node) + [cpu]];
      }
      assert record[..|record|] == record;
    }

    /** The first loop of Run: counts the busy containers of every node. */
    method CountBusy(containers: seq<Container>, writes: map<string, bool>) returns (busy: seq<Busy>)
      requires forall c :: c in containers ==> |c.cpus| > 0
      modifies this`containerNum, this`usedIndex
      ensures busy == BusyOf(cpuNuma, highLoadThreshold, containers, writes)
      ensures (forall n :: At(containerNum, n) == Count(busy, n)) && forall n :: At(usedIndex, n) == 0
    {
      containerNum, usedIndex, busy := map[], map[], [];
      for i := 0 to |containers|
        invariant forall c :: c in containers[..i] ==> |c.cpus| > 0
        invariant busy == BusyOf(cpuNuma, highLoadThreshold, containers[..i], writes)
        invariant (forall n :: At(containerNum, n) == Count(busy, n)) && forall n :: At(usedIndex, n) == 0
      {
        var c := containers[i];
        assert c in containers;
        assert Init(containers[..i + 1]) == containers[..i] && Last(containers[..i + 1]) == c;
        if IsHighLoad(c, highLoadThreshold) {
          var node := NodeOf(cpuNuma, c.cpus[0]);
          var b := Busy(c.id, node, c.id in writes && writes[c.id]);
          assert Init(busy + [b]) == busy && Last(busy + [b]) == b;
          containerNum := containerNum[node := At(containerNum, node) + 1];
          busy := busy + [b];
        }
      }
      assert containers[..|containers|] == containers;
    }

    /** Run: offers every busy container its slice, and moves on past the slices that were written. */
    method Run(containers: seq<Container>, writes: map<string, bool>) returns (slices: seq<Slice>)
      requires forall c :: c in containers ==> |c.cpus| > 0
      modifies this`containerNum, this`usedIndex
      ensures SlicesOf(nodes, BusyOf(cpuNuma, highLoadThreshold, containers, writes), slices)
    {
      var busy := CountBusy(containers, writes);
      slices := [];
      hide BusyOf;
      hide SliceOf;
      for i := 0 to |busy|
        invariant |slices| == i && forall j :: 0 <= j < i ==> slices[j] == SliceOf(nodes, busy, j)
        invariant forall n :: At(containerNum, n) == Count(busy, n)
        invariant Used(nodes, busy, i, usedIndex)
      {
        var b := busy[i];
        UsedStep(nodes, busy, i, usedIndex);
        var from, num := At(usedIndex, b.node), |CpusAt(nodes, b.node)| / At(containerNum, b.node);
        slices := slices + [Slice(b.id, b.node, from, num, b.ok)];
        if b.ok {
          usedIndex := usedIndex[b.node := from + num];
        }
      }
    }
  }
}
