/** Time in the run handler: when entries are due, when instances run, and when the schedule stalls. */
module RunSchedule {
  import opened Seqs
  import opened Ceilings
  import opened Topologies
  import opened TopicKey
  import opened RunSpec
  import opened RunInvariant
  import opened RunSystem

  // ---------- Alignment ----------

  /** First run and period fall on ticks; only an instance that runs once may have any period it never uses. */
  predicate Aligned(i: Info, cycle: nat)
    requires cycle > 0
  {
    i.Delay() % cycle == 0 && (i.runOnce || i.period % cycle == 0)
  }

  ghost predicate AllAligned(s: Handler, cycle: nat)
    requires cycle > 0
  {
    forall n :: n in s.insts ==> Aligned(s.insts[n].info, cycle)
  }

  /** The entries of an instance lie on future ticks. */
  ghost predicate OnTime(i: Inst, now: nat, cycle: nat)
    requires cycle > 0
  {
    forall x :: x in i.pending ==> x >= now && (x - now) % cycle == 0
  }

  ghost predicate Timed(s: Handler, cycle: nat)
    requires cycle > 0
  {
    forall n :: n in s.insts ==> OnTime(s.insts[n], s.time, cycle)
  }

  /** Nothing but an instance's own records changes in a message; its fixed properties never do. */
  ghost predicate SameInfos(s: Handler, r: Handler) {
    r.insts.Keys == s.insts.Keys && forall n :: n in s.insts ==> r.insts[n].info == s.insts[n].info
  }

  /** A message adds at most one entry to an instance, at the time of its first run. */
  ghost predicate Extended(i: Inst, j: Inst, now: nat) {
    j.info == i.info && (j.pending == i.pending || j.pending == i.pending + multiset{now + i.info.Delay()})
  }

  ghost predicate EntriesAdded(s: Handler, r: Handler) {
    r.insts.Keys == s.insts.Keys && r.time == s.time && forall n :: n in s.insts ==> Extended(s.insts[n], r.insts[n], s.time)
  }

  lemma RefreshEntries(s: Handler, subs: map<string, set<string>>)
    ensures EntriesAdded(s, Refresh(s.(subs := subs)))
  {
    var m := s.(subs := subs);
    forall n | n in s.insts ensures RefreshI(m, n).info == s.insts[n].info && RefreshI(m, n).pending == s.insts[n].pending {
    }
    hide RefreshI;
  }

  /** Entries and infos untouched. */
  ghost predicate SameEntries(s: Handler, r: Handler) {
    && r.insts.Keys == s.insts.Keys && r.time == s.time
    && forall n :: n in s.insts ==> r.insts[n].pending == s.insts[n].pending && r.insts[n].info == s.insts[n].info
  }

  lemma AwakeEntries(s: Handler, n: string)
    requires n in s.insts
    ensures EntriesAdded(s, Enable(s, n)) && EntriesAdded(s, s) && EntriesAdded(s, Awake(s, n))
  {
  }

  lemma OpenForEntries(s: Handler, t: Topic, a: Answers)
    requires t.instanceName in s.insts
    ensures SameEntries(s, OpenFor(s, t, a)) && SameEntries(s, Opened(s, t))
  {
    hide GetType;
    hide Named;
  }

  lemma EntriesTrans(s: Handler, m: Handler, r: Handler)
    requires EntriesAdded(s, m) && SameEntries(m, r)
    ensures EntriesAdded(s, r)
  {
  }

  lemma AddReaderEntries(s: Handler, m: Handler, key: string, who: string)
    requires EntriesAdded(s, m)
    ensures EntriesAdded(s, AddReader(m, key, who))
  {
  }

  lemma SubscribeEntries(s: Handler, key: string, who: string, a: Answers)
    requires GetTopicFromType(key).Some?
    ensures EntriesAdded(s, SubscribeTo(s, key, who, a).0)
  {
    var t := GetTopicFromType(key).value;
    var n := t.instanceName;
    if n in s.insts {
      AwakeEntries(s, n);
      var e := Awake(s, n);
      OpenForEntries(e, t, a);
      EntriesTrans(s, e, OpenFor(e, t, a));
      AddReaderEntries(s, OpenFor(e, t, a), key, who);
    } else {
      assert EntriesAdded(s, s);
    }
    hide OpenFor;
    hide Awake;
    hide EntriesAdded;
    hide SameEntries;
    hide AddReader;
  }

  lemma PublishEntries(s: Handler, t: Topic, a: Answers)
    ensures EntriesAdded(s, PublishTo(s, t, a).0)
  {
    var n := t.instanceName;
    if n in s.insts {
      AwakeEntries(s, n);
      OpenForEntries(Awake(s, n), t, a);
      EntriesTrans(s, Awake(s, n), Opened(Awake(s, n), t));
    } else {
      assert EntriesAdded(s, s);
    }
    hide EntriesAdded;
    hide SameEntries;
    hide Opened;
    hide Awake;
  }

  lemma HandleEntries(s: Handler, m: Msg, a: Answers)
    requires Readable(m)
    ensures EntriesAdded(s, Handle(s, m, a))
  {
    match m
    case Subscribe(key, who) =>
      SubscribeEntries(s, key, who, a);
      hide EntriesAdded;
      hide SubscribeTo;
    case Unsubscribe(key, who) =>
      RefreshEntries(s, Leave(s.subs, key, who));
      hide EntriesAdded;
      hide Refresh;
    case UnsubscribeSdk(fd) =>
      if Reads(s.subs, fd) {
        RefreshEntries(s, LeaveAll(s.subs, fd));
        hide EntriesAdded;
        hide Refresh;
      }
    case Publish(t) =>
      PublishEntries(s, t, a);
      hide EntriesAdded;
      hide PublishTo;
    case _ =>
  }

  lemma SumAligned(a: int, b: int, m: nat)
    requires m > 0 && a % m == 0 && b % m == 0
    ensures (a + b) % m == 0 && (a - b) % m == 0
  {
    var p, q := a / m, b / m;
    EuclidFact(a, m);
    EuclidFact(b, m);
    Minus(p, -q, m);
    Minus(p, q, m);
    assert -q * m == -(q * m) by { Minus(0, q, m); }
    MultipleIsAligned(p + q, m);
    MultipleIsAligned(p - q, m);
  }

  lemma MultipleIsAligned(q: int, m: nat)
    requires m > 0
    ensures (q * m) % m == 0
  {
    DivMul(q, m);
    EuclidFact(q * m, m);
  }

  lemma ExtendedOnTime(i: Inst, j: Inst, now: nat, cycle: nat)
    requires cycle > 0 && Extended(i, j, now) && OnTime(i, now, cycle) && Aligned(i.info, cycle)
    ensures OnTime(j, now, cycle) && Aligned(j.info, cycle)
  {
    forall x | x in j.pending ensures x >= now && (x - now) % cycle == 0 {
      if x !in i.pending {
        assert x - now == i.info.Delay();
      }
    }
  }

  lemma HandleTimed(s: Handler, m: Msg, a: Answers, cycle: nat)
    requires cycle > 0 && Readable(m) && AllAligned(s, cycle) && Timed(s, cycle)
    ensures AllAligned(Handle(s, m, a), cycle) && Timed(Handle(s, m, a), cycle)
  {
    HandleEntries(s, m, a);
    hide Handle;
    hide OnTime;
    hide Aligned;
    hide Extended;
    var r := Handle(s, m, a);
    forall n | n in s.insts ensures OnTime(r.insts[n], s.time, cycle) && Aligned(r.insts[n].info, cycle) {
      ExtendedOnTime(s.insts[n], r.insts[n], s.time, cycle);
    }
  }

  /** After Schedule every entry is strictly later than the clock, and still on a tick. */
  lemma TickITimed(i: Inst, now: nat, cycle: nat)
    requires cycle > 0 && OnTime(i, now, cycle) && Aligned(i.info, cycle) && (i.info.runOnce || i.info.period > 0)
    ensures forall x :: x in TickI(i, now).pending ==> x > now && (x - now) % cycle == 0
  {
  }

  lemma TickTimed(s: Handler, cycle: nat)
    requires cycle > 0 && AllAligned(s, cycle) && Timed(s, cycle) && Periodic(s)
    ensures !Overdue(s) && Timed(AddTime(Tick(s), cycle), cycle)
    ensures forall n, x :: n in s.insts && x in Tick(s).insts[n].pending ==> x > s.time
  {
    assert !Overdue(s) by {
      forall n, x | n in s.insts && x in s.insts[n].pending ensures x >= s.time {
        assert OnTime(s.insts[n], s.time, cycle);
      }
    }
    var r := Tick(s);
    forall n | n in s.insts ensures OnTime(r.insts[n], s.time + cycle, cycle) {
      assert OnTime(s.insts[n], s.time, cycle) && Aligned(s.insts[n].info, cycle);
      TickITimed(s.insts[n], s.time, cycle);
      forall x | x in r.insts[n].pending ensures x >= s.time + cycle && (x - (s.time + cycle)) % cycle == 0 {
        NextTick(x - s.time, cycle);
      }
    }
    forall n, x | n in s.insts && x in r.insts[n].pending ensures x > s.time {
      assert OnTime(s.insts[n], s.time, cycle) && Aligned(s.insts[n].info, cycle);
      TickITimed(s.insts[n], s.time, cycle);
    }
  }

  /** A positive multiple of the cycle is at least the cycle. */
  lemma NextTick(d: int, m: nat)
    requires m > 0 && d > 0 && d % m == 0
    ensures d >= m && (d - m) % m == 0
  {
    EuclidFact(d, m);
    var q := d / m;
    if q <= 0 {
      MulLe(q, 0, m);
    }
    MulLe(1, q, m);
    Minus(q, 1, m);
    MultipleIsAligned(q - 1, m);
  }

  // ---------- Runs with one cycle ----------

  predicate OneCycle(steps: seq<Step>, cycle: nat) {
    forall st :: st in steps ==> st.TickAndWait? ==> st.cycle == cycle
  }

  lemma NextTimed(s: System, step: Step, cycle: nat)
    requires SystemInv(s) && Possible(s, step) && cycle > 0 && (step.TickAndWait? ==> step.cycle == cycle)
    requires AllAligned(s.h, cycle) && Timed(s.h, cycle) && Periodic(s.h)
    ensures var r := Next(s, step).h; AllAligned(r, cycle) && Timed(r, cycle) && Periodic(r) && SameInfos(s.h, r)
  {
    match step
    case Post(m) =>
    case Take(a, posted) =>
      HandleTimed(s.h, s.queue[0], a, cycle);
      HandleEntries(s.h, s.queue[0], a);
    case TickAndWait(c, posted) =>
      TickTimed(s.h, cycle);
  }

  lemma {:induction false} RunTimed(s: System, steps: seq<Step>, cycle: nat)
    requires SystemInv(s) && PossibleRun(s, steps) && cycle > 0 && OneCycle(steps, cycle)
    requires AllAligned(s.h, cycle) && Timed(s.h, cycle) && Periodic(s.h)
    ensures var r := Run(s, steps).h; AllAligned(r, cycle) && Timed(r, cycle) && !Overdue(r) && Periodic(r)
    decreases |steps|
  {
    if |steps| > 0 {
      NextKeeps(s, steps[0]);
      NextTimed(s, steps[0], cycle);
      RunTimed(Next(s, steps[0]), steps[1..], cycle);
    } else {
      TickTimed(s.h, cycle);
    }
  }

  // ---------- Stalling ----------

  /** Once an entry is overdue, nothing ever runs again. */
  lemma OverdueForever(s: System, step: Step)
    requires SystemInv(s) && Possible(s, step) && Overdue(s.h)
    ensures Overdue(Next(s, step).h) && forall n :: Runs(Next(s, step).h, n) == 0
  {
    var n, x :| n in s.h.insts && x in s.h.insts[n].pending && x < s.h.time;
    var r := Next(s, step).h;
    if step.Take? {
      HandleEntries(s.h, s.queue[0], step.a);
    }
    assert n in r.insts && x in r.insts[n].pending && x < r.time;
  }

  /** k ticks without messages. */
  function Ticks(cycle: nat, k: nat): seq<Step> {
    if k == 0 then [] else [TickAndWait(cycle, [])] + Ticks(cycle, k - 1)
  }

  lemma {:induction false} TicksPossible(s: System, cycle: nat, k: nat)
    requires SystemInv(s) && !s.stopped
    ensures PossibleRun(s, Ticks(cycle, k)) && OneCycle(Ticks(cycle, k), cycle)
    decreases k
  {
    if k > 0 {
      var st := TickAndWait(cycle, []);
      NextKeeps(s, st);
      TicksPossible(Next(s, st), cycle, k - 1);
      assert Ticks(cycle, k)[0] == st && Ticks(cycle, k)[1..] == Ticks(cycle, k - 1);
    }
  }

  lemma {:induction false} StaysOverdue(s: System, cycle: nat, k: nat)
    requires SystemInv(s) && !s.stopped && Overdue(s.h) && PossibleRun(s, Ticks(cycle, k))
    ensures Overdue(Run(s, Ticks(cycle, k)).h)
    decreases k
  {
    if k > 0 {
      var st := TickAndWait(cycle, []);
      assert Ticks(cycle, k)[0] == st && Ticks(cycle, k)[1..] == Ticks(cycle, k - 1);
      NextKeeps(s, st);
      OverdueForever(s, st);
      StaysOverdue(Next(s, st), cycle, k - 1);
    }
  }

  /** One step ahead of the ticks that follow it. */
  lemma TickFirst(s: System, cycle: nat, j: nat)
    requires SystemInv(s) && !s.stopped
    ensures var st := TickAndWait(cycle, []);
            && SystemInv(Next(s, st)) && !Next(s, st).stopped
            && PossibleRun(s, Ticks(cycle, j + 1)) && PossibleRun(Next(s, st), Ticks(cycle, j))
            && Run(s, Ticks(cycle, j + 1)) == Run(Next(s, st), Ticks(cycle, j))
  {
    var st := TickAndWait(cycle, []);
    NextKeeps(s, st);
    TicksPossible(s, cycle, j + 1);
    assert Ticks(cycle, j + 1)[0] == st && Ticks(cycle, j + 1)[1..] == Ticks(cycle, j);
  }

  /** An entry that is not due is still there after a tick. */
  lemma NotDueStays(s: System, n: string, x: nat, cycle: nat)
    requires SystemInv(s) && !s.stopped && n in s.h.insts && x in s.h.insts[n].pending && x != s.h.time
    ensures var r := Next(s, TickAndWait(cycle, [])).h; n in r.insts && x in r.insts[n].pending && r.time == s.h.time + cycle
  {
  }

  predicate Divides(m: nat, d: int)
    requires m > 0
  {
    d % m == 0
  }

  /** An entry between two ticks is never reached: some ticks later it is overdue. */
  lemma {:induction false} OffTickStalls(s: System, n: string, x: nat, cycle: nat) returns (k: nat)
    requires SystemInv(s) && !s.stopped && cycle > 0
    requires n in s.h.insts && x in s.h.insts[n].pending && (x < s.h.time || !Divides(cycle, x - s.h.time))
    ensures PossibleRun(s, Ticks(cycle, k)) && Overdue(Run(s, Ticks(cycle, k)).h)
    decreases x - s.h.time
  {
    if x < s.h.time {
      k := 0;
      TicksPossible(s, cycle, k);
    } else {
      var r := Next(s, TickAndWait(cycle, []));
      TickFirst(s, cycle, 0);
      NotDueStays(s, n, x, cycle);
      OffByCycle(x - s.h.time, cycle);
      hide Next;
      hide SystemInv;
      var j := OffTickStalls(r, n, x, cycle);
      TickFirst(s, cycle, j);
      k := j + 1;
    }
  }

  lemma OffByCycle(d: int, m: nat)
    requires m > 0 && !Divides(m, d)
    ensures !Divides(m, d - m)
  {
    if (d - m) % m == 0 {
      MultipleIsAligned(1, m);
      SumAligned(d - m, m, m);
    }
  }

  /** A repeating instance that is due at x has an entry one period later after the tick. */
  lemma DueComesBack(s: System, n: string, cycle: nat)
    requires SystemInv(s) && !s.stopped && !Overdue(s.h) && n in s.h.insts && s.h.time in s.h.insts[n].pending
    requires s.h.insts[n].enabled && !s.h.insts[n].info.runOnce
    ensures var r := Next(s, TickAndWait(cycle, [])).h;
            n in r.insts && s.h.time + s.h.insts[n].info.period in r.insts[n].pending && r.time == s.h.time + cycle
  {
  }

  lemma StaysEnabled(s: System, n: string, cycle: nat)
    requires SystemInv(s) && !s.stopped && n in s.h.insts && s.h.insts[n].enabled && !s.h.insts[n].info.runOnce
    ensures var r := Next(s, TickAndWait(cycle, [])).h; n in r.insts && r.insts[n].enabled && r.insts[n].info == s.h.insts[n].info
  {
  }

  /** What ticks after the first one show, they show when counted from the start. */
  lemma OneTickMore(s: System, cycle: nat, j: nat)
    requires SystemInv(s) && !s.stopped
    requires var r := Next(s, TickAndWait(cycle, []));
             SystemInv(r) && PossibleRun(r, Ticks(cycle, j)) && Overdue(Run(r, Ticks(cycle, j)).h)
    ensures PossibleRun(s, Ticks(cycle, j + 1)) && Overdue(Run(s, Ticks(cycle, j + 1)).h)
  {
    TickFirst(s, cycle, j);
  }

  /** An instance that is due, with a period off the ticks. */
  ghost predicate DueOffTick(s: System, n: string, cycle: nat) {
    && SystemInv(s) && !s.stopped && cycle > 0 && !Overdue(s.h)
    && n in s.h.insts && s.h.insts[n].enabled && !s.h.insts[n].info.runOnce && !Divides(cycle, s.h.insts[n].info.period)
    && s.h.time in s.h.insts[n].pending
  }

  /** Right after a run, the next one is off the ticks. */
  lemma DueGoesOff(s: System, n: string, cycle: nat)
    requires DueOffTick(s, n, cycle)
    ensures var r, x := Next(s, TickAndWait(cycle, [])), s.h.time + s.h.insts[n].info.period;
            && SystemInv(r) && !r.stopped && n in r.h.insts && x in r.h.insts[n].pending && !Divides(cycle, x - r.h.time)
  {
    TickFirst(s, cycle, 0);
    DueComesBack(s, n, cycle);
    OffByCycle(s.h.insts[n].info.period, cycle);
    assert s.h.time + s.h.insts[n].info.period - (s.h.time + cycle) == s.h.insts[n].info.period - cycle;
    hide SystemInv;
    hide Ticks;
    hide Run;
    hide PossibleRun;
  }

  lemma DueStalls(s: System, n: string, cycle: nat) returns (k: nat)
    requires DueOffTick(s, n, cycle)
    ensures PossibleRun(s, Ticks(cycle, k)) && Overdue(Run(s, Ticks(cycle, k)).h)
  {
    hide Run;
    hide Tick;
    hide Overdue;
    hide SystemInv;
    DueGoesOff(s, n, cycle);
    var j := OffTickStalls(Next(s, TickAndWait(cycle, [])), n, s.h.time + s.h.insts[n].info.period, cycle);
    OneTickMore(s, cycle, j);
    k := j + 1;
  }

  /** A period off the ticks stalls the schedule once the instance has run. */
  lemma {:induction false} OffPeriodStalls(s: System, n: string, x: nat, cycle: nat) returns (k: nat)
    requires SystemInv(s) && !s.stopped && cycle > 0
    requires n in s.h.insts && s.h.insts[n].enabled && !s.h.insts[n].info.runOnce && !Divides(cycle, s.h.insts[n].info.period)
    requires x in s.h.insts[n].pending && x >= s.h.time && Divides(cycle, x - s.h.time)
    ensures PossibleRun(s, Ticks(cycle, k)) && Overdue(Run(s, Ticks(cycle, k)).h)
    decreases x - s.h.time
  {
    hide Overdue;
    if Overdue(s.h) {
      k := 0;
      TicksPossible(s, cycle, k);
    } else if x == s.h.time {
      k := DueStalls(s, n, cycle);
    } else {
      var r := Next(s, TickAndWait(cycle, []));
      TickFirst(s, cycle, 0);
      StaysEnabled(s, n, cycle);
      NotDueStays(s, n, x, cycle);
      NextTick(x - s.h.time, cycle);
      hide Next;
      hide SystemInv;
      var j := OffPeriodStalls(r, n, x, cycle);
      TickFirst(s, cycle, j);
      k := j + 1;
    }
  }

  // ---------- Exactly when the schedule never stalls ----------

  /** No run whose ticks are one cycle apart ever has an overdue entry. */
  ghost predicate NeverStalls(s: System, cycle: nat)
    requires SystemInv(s)
  {
    forall steps :: PossibleRun(s, steps) && OneCycle(steps, cycle) ==> !Overdue(Run(s, steps).h)
  }

  /** The two steps that enable an instance. */
  lemma EnableFirst(insts: map<string, Inst>, n: string)
    requires FreshInsts(insts) && n in insts && SystemInv(Start(insts))
    ensures var post, take := Post(Enabled(n)), Take(Answers(true, true), []);
            var s := Start(insts);
            && Possible(s, post) && SystemInv(Next(s, post)) && Possible(Next(s, post), take)
            && var r := Next(Next(s, post), take);
               && SystemInv(r) && !r.stopped && r.h.time == 0 && n in r.h.insts && r.h.insts[n].enabled
               && r.h.insts[n].info == insts[n].info && r.h.insts[n].pending == multiset{insts[n].info.Delay()}
  {
    var s, post, take := Start(insts), Post(Enabled(n)), Take(Answers(true, true), []);
    NextKeeps(s, post);
    assert Next(s, post).queue == [Enabled(n)];
    NextKeeps(Next(s, post), take);
  }

  lemma StepsAhead(s: System, a: Step, b: Step, steps: seq<Step>)
    requires SystemInv(s) && Possible(s, a) && SystemInv(Next(s, a)) && Possible(Next(s, a), b) && SystemInv(Next(Next(s, a), b))
    requires PossibleRun(Next(Next(s, a), b), steps)
    ensures PossibleRun(s, [a, b] + steps) && Run(s, [a, b] + steps) == Run(Next(Next(s, a), b), steps)
  {
    var all := [a, b] + steps;
    assert all[0] == a && all[1..] == [b] + steps && all[1..][0] == b && all[1..][1..] == steps;
  }

  lemma MisalignedStalls(insts: map<string, Inst>, n: string, cycle: nat) returns (steps: seq<Step>)
    requires cycle > 0 && FreshInsts(insts) && SystemInv(Start(insts)) && n in insts && !Aligned(insts[n].info, cycle)
    ensures PossibleRun(Start(insts), steps) && OneCycle(steps, cycle) && Overdue(Run(Start(insts), steps).h)
  {
    var s, post, take := Start(insts), Post(Enabled(n)), Take(Answers(true, true), []);
    EnableFirst(insts, n);
    var r := Next(Next(s, post), take);
    var i := insts[n].info;
    var k;
    if i.Delay() % cycle != 0 {
      k := OffTickStalls(r, n, i.Delay(), cycle);
    } else {
      k := OffPeriodStalls(r, n, i.Delay(), cycle);
    }
    TicksPossible(r, cycle, k);
    steps := [post, take] + Ticks(cycle, k);
    hide Next;
    hide SystemInv;
    StepsAhead(s, post, take, Ticks(cycle, k));
  }

  /** The schedule never stalls exactly when every instance's first run and period fall on ticks. */
  lemma StallsExactly(insts: map<string, Inst>, cycle: nat)
    requires cycle > 0 && FreshInsts(insts) && SystemInv(Start(insts)) && Periodic(Start(insts).h)
    ensures NeverStalls(Start(insts), cycle) <==> forall n :: n in insts ==> Aligned(insts[n].info, cycle)
  {
    var s := Start(insts);
    if forall n :: n in insts ==> Aligned(insts[n].info, cycle) {
      assert AllAligned(s.h, cycle) && Timed(s.h, cycle);
      forall steps | PossibleRun(s, steps) && OneCycle(steps, cycle) ensures !Overdue(Run(s, steps).h) {
        RunTimed(s, steps, cycle);
      }
    } else {
      var n :| n in insts && !Aligned(insts[n].info, cycle);
      var steps := MisalignedStalls(insts, n, cycle);
    }
  }

  // ---------- Exact run times ----------

  /** The first time at or after `now` that is `first` or a whole number of periods after it. */
  function NextRun(first: nat, period: nat, now: nat): (x: nat)
    requires period > 0
    ensures x >= now && x >= first && (x - first) % period == 0
    ensures x == first || x < now + period
  {
    if now <= first then first
    else
      EuclidFact(now - first, period);
      CeilDivFact(now - first, period);
      MultipleIsAligned(CeilDiv(now - first, period), period);
      first + CeilDiv(now - first, period) * period
  }

  lemma CeilDivFact(a: nat, b: nat)
    requires b > 0
    ensures a <= CeilDiv(a, b) * b < a + b
  {
    EuclidFact(a + b - 1, b);
  }

  /** Between two consecutive multiples there is no third. */
  lemma OneMultiple(d: int, m: nat)
    requires m > 0 && d % m == 0 && 0 < d
    ensures d >= m
  {
    NextTick(d, m);
  }

  lemma NextRunIs(first: nat, period: nat, now: nat, x: nat)
    requires period > 0 && x >= now && x >= first && (x - first) % period == 0 && (x == first || x < now + period)
    ensures x == NextRun(first, period, now)
  {
    var y := NextRun(first, period, now);
    SumAligned(x - first, y - first, period);
    SumAligned(y - first, x - first, period);
    assert (x - first) - (y - first) == x - y && (y - first) - (x - first) == y - x;
    if x > y {
      OneMultiple(x - y, period);
    } else if y > x {
      OneMultiple(y - x, period);
    }
  }

  /** The instance's one entry is its next run. */
  ghost predicate InPhase(i: Inst, first: nat, now: nat) {
    i.enabled && !i.info.runOnce && i.info.period > 0 && i.pending == multiset{NextRun(first, i.info.period, now)}
  }

  /** If the instance is enabled now, its first run is its only entry. */
  ghost predicate FirstEntry(i: Inst, r: Handler, n: string, now: nat) {
    n in r.insts && (r.insts[n].enabled ==> r.insts[n].info == i.info && r.insts[n].pending == multiset{now + i.info.Delay()})
  }

  ghost predicate Asleep(s: Handler, n: string) {
    n in s.insts && !s.insts[n].enabled && s.insts[n].pending == multiset{}
  }

  lemma WakeFirst(s: Handler, n: string, k: string)
    requires Asleep(s, n) && k in s.insts
    ensures FirstEntry(s.insts[n], Enable(s, k), n, s.time) && FirstEntry(s.insts[n], Awake(s, k), n, s.time)
  {
    var i := s.insts[n];
    assert i.pending + multiset{s.time + i.info.Delay()} == multiset{s.time + i.info.Delay()};
  }

  lemma OpenForFirst(i: Inst, s: Handler, t: Topic, a: Answers, n: string, now: nat)
    requires FirstEntry(i, s, n, now) && t.instanceName in s.insts
    ensures FirstEntry(i, OpenFor(s, t, a), n, now) && FirstEntry(i, Opened(s, t), n, now)
  {
    hide Named;
  }

  lemma RefreshFirst(s: Handler, subs: map<string, set<string>>, n: string)
    requires Asleep(s, n)
    ensures FirstEntry(s.insts[n], Refresh(s.(subs := subs)), n, s.time)
  {
    var m := s.(subs := subs);
    assert !RefreshI(m, n).enabled && Refresh(m).insts[n] == RefreshI(m, n);
  }

  lemma SubscribeFirst(s: Handler, key: string, who: string, a: Answers, n: string)
    requires Asleep(s, n) && GetTopicFromType(key).Some?
    ensures FirstEntry(s.insts[n], SubscribeTo(s, key, who, a).0, n, s.time)
  {
    var t := GetTopicFromType(key).value;
    if t.instanceName in s.insts {
      WakeFirst(s, n, t.instanceName);
      OpenForFirst(s.insts[n], Awake(s, t.instanceName), t, a, n, s.time);
    }
    hide OpenFor;
    hide Awake;
  }

  lemma PublishFirst(s: Handler, t: Topic, a: Answers, n: string)
    requires Asleep(s, n)
    ensures FirstEntry(s.insts[n], PublishTo(s, t, a).0, n, s.time)
  {
    if t.instanceName in s.insts {
      WakeFirst(s, n, t.instanceName);
      OpenForFirst(s.insts[n], Awake(s, t.instanceName), t, a, n, s.time);
    }
    hide Opened;
    hide Awake;
  }

  /** An instance without entries has, once a message has enabled it, its first run as its only entry. */
  lemma HandleFirst(s: Handler, m: Msg, a: Answers, n: string)
    requires Readable(m) && Asleep(s, n)
    ensures FirstEntry(s.insts[n], Handle(s, m, a), n, s.time)
  {
    hide SubscribeTo;
    hide PublishTo;
    hide Refresh;
    match m
    case Enabled(k) =>
      if k in s.insts {
        WakeFirst(s, n, k);
      }
    case Subscribe(key, who) => SubscribeFirst(s, key, who, a, n);
    case Unsubscribe(key, who) => RefreshFirst(s, Leave(s.subs, key, who), n);
    case UnsubscribeSdk(fd) => RefreshFirst(s, LeaveAll(s.subs, fd), n);
    case Publish(t) => PublishFirst(s, t, a, n);
    case _ =>
  }

  lemma FirstInPhase(i: Inst, r: Handler, n: string, cycle: nat)
    requires cycle > 0 && FirstEntry(i, r, n, r.time) && Aligned(i.info, cycle) && !i.info.runOnce && i.info.period > 0
    ensures var first := r.time + i.info.Delay();
            && first % cycle == r.time % cycle && n in r.insts && (r.insts[n].enabled ==> InPhase(r.insts[n], first, r.time))
  {
    FirstOnTick(r.time, i.info.Delay(), cycle);
  }

  lemma AsleepFacts(s: System, n: string, cycle: nat)
    requires SystemInv(s) && cycle > 0 && AllAligned(s.h, cycle) && Periodic(s.h)
    requires n in s.h.insts && s.h.insts[n].pending == multiset{} && !s.h.insts[n].info.runOnce
    ensures Asleep(s.h, n) && Aligned(s.h.insts[n].info, cycle) && s.h.insts[n].info.period > 0
  {
    assert Scheduled(s.h.insts[n]);
  }

  lemma TakenHandler(s: System, a: Answers, posted: seq<Msg>)
    requires SystemInv(s) && Possible(s, Take(a, posted))
    ensures Readable(s.queue[0])
    ensures var r := Next(s, Take(a, posted)).h; r == Handle(s.h, s.queue[0], a) && r.time == s.h.time
  {
    HandleEntries(s.h, s.queue[0], a);
    hide Handle;
  }

  /** Whatever message enables an instance without entries puts it in phase with its first run. */
  lemma EnabledInPhase(s: System, n: string, a: Answers, posted: seq<Msg>, cycle: nat)
    requires SystemInv(s) && Possible(s, Take(a, posted))
    requires cycle > 0 && AllAligned(s.h, cycle) && Timed(s.h, cycle) && Periodic(s.h)
    requires n in s.h.insts && s.h.insts[n].pending == multiset{} && !s.h.insts[n].info.runOnce
    ensures var r := Next(s, Take(a, posted));
            n in r.h.insts && (r.h.insts[n].enabled ==> CanTime(r, n, s.h.time + s.h.insts[n].info.Delay(), cycle))
  {
    hide SystemInv;
    hide AllAligned;
    hide Timed;
    hide Periodic;
    hide SameInfos;
    hide Handle;
    hide Next;
    hide InPhase;
    hide FirstEntry;
    AsleepFacts(s, n, cycle);
    TakenHandler(s, a, posted);
    NextKeeps(s, Take(a, posted));
    NextTimed(s, Take(a, posted), cycle);
    HandleFirst(s.h, s.queue[0], a, n);
    FirstInPhase(s.h.insts[n], Handle(s.h, s.queue[0], a), n, cycle);
  }

  lemma FirstOnTick(now: nat, delay: nat, cycle: nat)
    requires cycle > 0 && delay % cycle == 0
    ensures (now + delay) % cycle == now % cycle
  {
    EuclidFact(delay, cycle);
    EuclidFact(now, cycle);
    EuclidFact(now + delay, cycle);
    var q := (now + delay) / cycle - now / cycle - delay / cycle;
    Minus((now + delay) / cycle, now / cycle, cycle);
    Minus((now + delay) / cycle - now / cycle, delay / cycle, cycle);
    assert q * cycle == now % cycle - (now + delay) % cycle;
    if q >= 1 {
      MulLe(1, q, cycle);
    } else if q <= -1 {
      MulLe(q, -1, cycle);
    }
  }

  /** The clock shows `first` or a whole number of periods after it. */
  predicate IsRunTime(first: nat, period: nat, now: nat)
    requires period > 0
  {
    now >= first && (now - first) % period == 0
  }

  /** In phase, the instance runs once at a run time and not at all otherwise, and stays in phase. */
  lemma TickInPhase(i: Inst, first: nat, now: nat, cycle: nat)
    requires InPhase(i, first, now) && cycle > 0 && first % cycle == now % cycle && i.info.period % cycle == 0
    ensures RunsI(i, now) == if IsRunTime(first, i.info.period, now) then 1 else 0
    ensures InPhase(TickI(i, now), first, now + cycle)
  {
    var p := i.info.period;
    var x := NextRun(first, p, now);
    if IsRunTime(first, p, now) {
      NextRunIs(first, p, now, now);
      assert x == now;
      assert i.pending[now := 0] == multiset{};
      assert TickI(i, now).pending == multiset{now + p};
      NextPeriod(first, p, now, cycle);
    } else {
      assert x != now;
      assert TickI(i, now) == i;
      LaterTick(first, p, now, cycle, x);
    }
  }

  lemma NextPeriod(first: nat, p: nat, now: nat, cycle: nat)
    requires cycle > 0 && p > 0 && p % cycle == 0 && IsRunTime(first, p, now)
    ensures NextRun(first, p, now + cycle) == now + p
  {
    NextTick(p, cycle);
    MultipleIsAligned(1, p);
    SumAligned(now - first, p, p);
    assert now - first + p == now + p - first;
    NextRunIs(first, p, now + cycle, now + p);
  }

  lemma LaterTick(first: nat, p: nat, now: nat, cycle: nat, x: nat)
    requires cycle > 0 && p > 0 && p % cycle == 0 && first % cycle == now % cycle
    requires x == NextRun(first, p, now) && x != now
    ensures NextRun(first, p, now + cycle) == x
  {
    OnTick(first, p, now, cycle, x);
    NextTick(x - now, cycle);
    NextRunIs(first, p, now + cycle, x);
  }

  /** Every run time is on a tick. */
  lemma OnTick(first: nat, p: nat, now: nat, cycle: nat, x: nat)
    requires cycle > 0 && p > 0 && p % cycle == 0 && first % cycle == now % cycle && x >= first && (x - first) % p == 0
    ensures (x - now) % cycle == 0
  {
    EuclidFact(x - first, p);
    EuclidFact(p, cycle);
    var q, r := (x - first) / p, p / cycle;
    assert x - first == (q * r) * cycle by { assert q * p == q * (r * cycle); Regroup(q, r, cycle); }
    MultipleIsAligned(q * r, cycle);
    EuclidFact(first, cycle);
    EuclidFact(now, cycle);
    Minus(first / cycle, now / cycle, cycle);
    MultipleIsAligned(first / cycle - now / cycle, cycle);
    SumAligned(x - first, first - now, cycle);
  }

  lemma Regroup(q: int, r: int, m: int)
    ensures q * (r * m) == (q * r) * m
  {
  }

  /** No message of the run enables or disables instance n. */
  ghost predicate Undisturbed(s: System, steps: seq<Step>, n: string)
    requires SystemInv(s) && PossibleRun(s, steps)
    decreases |steps|
  {
    |steps| > 0 ==> (
      NextKeeps(s, steps[0]);
      var r := Next(s, steps[0]);
      && (steps[0].Take? && n in s.h.insts && n in r.h.insts ==>
            r.h.insts[n].enabled == s.h.insts[n].enabled && r.h.insts[n].pending == s.h.insts[n].pending)
      && Undisturbed(r, steps[1..], n))
  }

  ghost predicate CanTime(s: System, n: string, first: nat, cycle: nat) {
    && SystemInv(s) && cycle > 0 && AllAligned(s.h, cycle) && Timed(s.h, cycle) && Periodic(s.h)
    && n in s.h.insts && InPhase(s.h.insts[n], first, s.h.time) && first % cycle == s.h.time % cycle
  }

  lemma NextInPhase(s: System, step: Step, n: string, first: nat, cycle: nat)
    requires CanTime(s, n, first, cycle) && PossibleRun(s, [step]) && OneCycle([step], cycle) && Undisturbed(s, [step], n)
    ensures CanTime(Next(s, step), n, first, cycle)
  {
    assert Possible(s, step) && OneCycle([step], cycle) && step in [step];
    NextKeeps(s, step);
    NextTimed(s, step, cycle);
    var r := Next(s, step);
    if step.Take? {
      HandleEntries(s.h, s.queue[0], step.a);
    } else if step.TickAndWait? {
      TickTimed(s.h, cycle);
      TickInPhase(s.h.insts[n], first, s.h.time, cycle);
      SameTick(s.h.time, cycle);
    }
  }

  lemma SameTick(a: nat, m: nat)
    requires m > 0
    ensures (a + m) % m == a % m
  {
    EuclidFact(a, m);
    EuclidFact(a + m, m);
    var q := (a + m) / m - a / m;
    Minus((a + m) / m, a / m, m);
    assert q * m == m + a % m - (a + m) % m;
    if q >= 2 {
      MulLe(2, q, m);
    } else if q <= 0 {
      MulLe(q, 0, m);
    }
  }

  /**
   * Over any run in which nobody enables or disables it, an instance in phase runs exactly at its first run
   * time and every period after it, once each.
   */
  lemma {:induction false} ExactRunTimes(s: System, steps: seq<Step>, n: string, first: nat, cycle: nat)
    requires CanTime(s, n, first, cycle) && PossibleRun(s, steps) && OneCycle(steps, cycle) && Undisturbed(s, steps, n)
    ensures var h := Run(s, steps).h;
            && n in h.insts && h.insts[n].info.period > 0
            && Runs(h, n) == if IsRunTime(first, h.insts[n].info.period, h.time) then 1 else 0
    decreases |steps|
  {
    if |steps| == 0 {
      TickTimed(s.h, cycle);
      TickInPhase(s.h.insts[n], first, s.h.time, cycle);
    } else {
      NextKeeps(s, steps[0]);
      assert steps[0] in steps;
      NextInPhase(s, steps[0], n, first, cycle);
      ExactRunTimes(Next(s, steps[0]), steps[1..], n, first, cycle);
    }
  }
}
