/** What the handler's loops do turn by turn: closing, refreshing, leaving, and running what is due. */
module RunSteps {
  import opened Seqs
  import opened TopicKey
  import opened RunSpec
  import opened RunInvariant
  import opened RunSystem

  /** What the plugins do at their n-th call: agree or refuse, and post messages. */
  datatype Plugins = Plugins(ok: nat -> bool, posts: nat -> seq<Msg>)

  ghost predicate FromPlugin(p: Plugins, m: Msg) {
    exists c: nat :: m in p.posts(c)
  }

  /** The queue has only grown, by messages of the plugins. */
  ghost predicate Grown(p: Plugins, before: seq<Msg>, after: seq<Msg>) {
    before <= after && forall i :: |before| <= i < |after| ==> FromPlugin(p, after[i])
  }

  lemma GrownOnce(p: Plugins, a: seq<Msg>, c: nat)
    ensures Grown(p, a, a) && Grown(p, a, a + p.posts(c))
  {
  }

  lemma GrownTwice(p: Plugins, a: seq<Msg>, b: seq<Msg>, c: seq<Msg>)
    requires Grown(p, a, b) && Grown(p, b, c)
    ensures Grown(p, a, c)
  {
  }

  // ---------- Instances during a refresh or a tick ----------

  /** The instance while its kept keys `done` have been closed at the plugin. */
  ghost function ClosedI(i: Inst, done: set<string>): Inst {
    i.(atPlugin := set t | t in i.atPlugin && !Named(done, t))
  }

  lemma CloseKey(i: Inst, done: set<string>, key: string)
    ensures ClosedI(i, done + {key}) ==
              match GetTopicFromType(key) case None => ClosedI(i, done) case Some(t) => ClosedI(i, done).(atPlugin := ClosedI(i, done).atPlugin - {t})
  {
    assert forall t :: Named(done + {key}, t) <==> Named(done, t) || GetTopicFromType(key) == Some(t);
  }

  /** The instance while `gone` of its stale topics have been closed. */
  ghost function PrunedI(i: Inst, gone: set<Topic>): Inst {
    i.(open := i.open - set t | t in gone :: GetType(t), atPlugin := i.atPlugin - gone)
  }

  lemma CloseOneMore(i: Inst, gone: set<Topic>, t: Topic)
    ensures CloseI(PrunedI(i, gone), t) == PrunedI(i, gone + {t})
  {
  }

  /** The instance once k of its due entries have been handled. */
  ghost function PartI(i: Inst, now: nat, k: nat): Inst
    requires k <= i.pending[now]
  {
    var rest := i.pending[now := i.pending[now] - k];
    if k == 0 then i
    else if !i.enabled then i.(pending := rest)
    else if i.info.runOnce then ShutI(i).(pending := rest)
    else i.(pending := rest[now + i.info.period := rest[now + i.info.period] + k])
  }

  function RanI(i: Inst, k: nat): nat {
    if !i.enabled || k == 0 then 0 else if i.info.runOnce then 1 else k
  }

  lemma PartAll(i: Inst, now: nat)
    requires i.info.runOnce || i.info.period > 0
    ensures PartI(i, now, i.pending[now]) == TickI(i, now) && RanI(i, i.pending[now]) == RunsI(i, now)
    ensures PartI(i, now, 0) == i
  {
  }

  ghost function Popped(i: Inst, now: nat): Inst {
    i.(pending := i.pending - multiset{now})
  }

  /** An instance after a run: one that runs once is closed, any other is queued again one period later. */
  ghost function Rerun(i: Inst, now: nat): Inst {
    if i.info.runOnce then ShutI(i) else i.(pending := i.pending + multiset{now + i.info.period})
  }

  /** An instance after one of its due entries has been handled. */
  ghost function AfterDue(i: Inst, now: nat): Inst {
    if i.enabled then Rerun(Popped(i, now), now) else Popped(i, now)
  }

  /** Handling one more due entry. */
  lemma PartStep(i: Inst, now: nat, k: nat)
    requires k < i.pending[now] && (i.info.runOnce || i.info.period > 0)
    ensures var j := PartI(i, now, k);
            && j.info == i.info && now in j.pending
            && RanI(i, k + 1) == RanI(i, k) + (if j.enabled then 1 else 0)
            && PartI(i, now, k + 1) == AfterDue(j, now)
  {
    var j := PartI(i, now, k);
    var p := j.pending - multiset{now};
    if j.enabled && !i.info.runOnce {
      assert PartI(i, now, k + 1).pending == p + multiset{now + i.info.period};
    } else {
      assert PartI(i, now, k + 1).pending == p;
    }
  }

  /** The names of the instances with due entries, once per entry. */
  ghost function DueBag(insts: map<string, Inst>, now: nat, names: set<string>): (bag: multiset<string>)
    requires names <= insts.Keys
    ensures forall n :: bag[n] == if n in names then insts[n].pending[now] else 0
    decreases |names|
  {
    if names == {} then multiset{}
    else
      var n :| n in names;
      var rest := DueBag(insts, now, names - {n});
      rest[n := insts[n].pending[now]]
  }

  /** The queue's order: earlier first, then the smaller priority number. */
  predicate Before(x: nat, p: int, y: nat, q: int) {
    x < y || (x == y && p <= q)
  }

  /** No entry is ahead of this one. */
  predicate IsTop(insts: map<string, Inst>, n: string, x: nat) {
    n in insts && x in insts[n].pending &&
    forall m :: m in insts ==> forall y :: y in insts[m].pending ==> Before(x, insts[n].info.priority, y, insts[m].info.priority)
  }

  ghost function Entries(insts: map<string, Inst>): set<(string, nat)> {
    set n, x | n in insts && x in insts[n].pending :: (n, x)
  }

  lemma {:induction false} LeastEntry(insts: map<string, Inst>, entries: set<(string, nat)>) returns (n: string, x: nat)
    requires entries != {} && forall e :: e in entries ==> e.0 in insts
    ensures (n, x) in entries
    ensures forall e :: e in entries ==> Before(x, insts[n].info.priority, e.1, insts[e.0].info.priority)
    decreases |entries|
  {
    var e :| e in entries;
    if entries == {e} {
      n, x := e.0, e.1;
    } else {
      assert entries == entries - {e} + {e};
      n, x := LeastEntry(insts, entries - {e});
      if !Before(x, insts[n].info.priority, e.1, insts[e.0].info.priority) {
        n, x := e.0, e.1;
      }
    }
  }

  lemma TopExists(insts: map<string, Inst>, m: string)
    requires m in insts && insts[m].pending != multiset{}
    ensures exists n, x :: IsTop(insts, n, x)
  {
    var y :| y in insts[m].pending;
    assert (m, y) in Entries(insts);
    var n, x := LeastEntry(insts, Entries(insts));
    forall k, z | k in insts && z in insts[k].pending
      ensures Before(x, insts[n].info.priority, z, insts[k].info.priority)
    {
      assert (k, z) in Entries(insts);
    }
    assert IsTop(insts, n, x);
  }

  // ---------- One call of Schedule step by step ----------

  ghost predicate InPriorityOrder(insts: map<string, Inst>, ran: seq<string>) {
    && (forall i :: 0 <= i < |ran| ==> ran[i] in insts)
    && forall i, j :: 0 <= i < j < |ran| ==> insts[ran[i]].info.priority <= insts[ran[j]].info.priority
  }

  /** How many due entries of instance n have been handled when `todo` are left. */
  ghost predicate PartlyDone(s: Handler, i: Inst, n: string, todo: multiset<string>, ran: seq<string>)
    requires n in s.insts
  {
    var due := s.insts[n].pending[s.time];
    todo[n] <= due && i == PartI(s.insts[n], s.time, due - todo[n]) && multiset(ran)[n] == RanI(s.insts[n], due - todo[n])
  }

  ghost predicate PartlyDoneAll(s: Handler, r: Handler, todo: multiset<string>, ran: seq<string>)
    requires r.insts.Keys == s.insts.Keys
  {
    && (forall n :: n in s.insts ==> PartlyDone(s, r.insts[n], n, todo, ran))
    && (forall n :: n !in s.insts ==> todo[n] == 0 && multiset(ran)[n] == 0)
  }

  ghost predicate Ordered(s: Handler, todo: multiset<string>, ran: seq<string>) {
    && InPriorityOrder(s.insts, ran) && (forall m :: m in todo ==> m in s.insts)
    && (forall n, m :: n in ran && m in todo ==> s.insts[n].info.priority <= s.insts[m].info.priority)
  }

  /** s has been turned into r: of the due entries `todo` are left, and the instances in `ran` have run. */
  ghost predicate Partial(s: Handler, r: Handler, todo: multiset<string>, ran: seq<string>) {
    && r.insts.Keys == s.insts.Keys && r == s.(insts := r.insts) && Periodic(s)
    && PartlyDoneAll(s, r, todo, ran) && Ordered(s, todo, ran)
  }

  lemma PartialStarts(s: Handler, todo: multiset<string>)
    requires Periodic(s) && todo == DueBag(s.insts, s.time, s.insts.Keys)
    ensures Partial(s, s, todo, [])
  {
  }

  /** What is still pending now is what is left to do. */
  lemma StillDue(s: Handler, r: Handler, todo: multiset<string>, ran: seq<string>, n: string)
    requires Partial(s, r, todo, ran) && n in s.insts
    ensures r.insts[n].pending[s.time] == todo[n] && r.insts[n].info == s.insts[n].info
    ensures forall x :: x in s.insts[n].pending && x != s.time ==> x in r.insts[n].pending
    ensures forall x :: x in r.insts[n].pending ==> x in s.insts[n].pending || x > s.time
  {
    assert PartlyDone(s, r.insts[n], n, todo, ran);
  }

  /** The top of the queue is due, or nothing is, or an overdue entry blocks the queue. */
  lemma TopIsDue(s: Handler, r: Handler, todo: multiset<string>, ran: seq<string>, found: bool, name: string, x: nat)
    requires Partial(s, r, todo, ran)
    requires found ==> IsTop(r.insts, name, x)
    requires !found ==> forall n :: n in r.insts ==> r.insts[n].pending == multiset{}
    ensures !found ==> todo == multiset{}
    ensures found && x != s.time ==> todo == multiset{} || Overdue(s)
    ensures found && x == s.time ==> !Overdue(s) && name in todo
    ensures found && x == s.time ==> forall m :: m in todo ==> m in s.insts && s.insts[name].info.priority <= s.insts[m].info.priority
  {
    forall n | n in s.insts
      ensures r.insts[n].pending[s.time] == todo[n] && r.insts[n].info == s.insts[n].info
      ensures forall y :: y in s.insts[n].pending && y != s.time ==> y in r.insts[n].pending
      ensures forall y :: y in r.insts[n].pending ==> y in s.insts[n].pending || y > s.time
    {
      StillDue(s, r, todo, ran, n);
    }
    assert forall n :: n in todo ==> n in s.insts && s.time in r.insts[n].pending;
    hide PartlyDone;
  }

  function RanWith(ran: seq<string>, name: string, did: bool): seq<string> {
    if did then ran + [name] else ran
  }

  lemma PartlyDoneBy(s: Handler, i: Inst, n: string, todo: multiset<string>, ran: seq<string>, k: nat)
    requires n in s.insts && k + todo[n] == s.insts[n].pending[s.time]
    ensures PartlyDone(s, i, n, todo, ran) <==> i == PartI(s.insts[n], s.time, k) && multiset(ran)[n] == RanI(s.insts[n], k)
  {
    hide PartI;
    hide RanI;
  }

  lemma OneMore(todo: multiset<string>, ran: seq<string>, name: string, did: bool)
    requires name in todo
    ensures (todo - multiset{name})[name] + 1 == todo[name]
    ensures multiset(RanWith(ran, name, did))[name] == multiset(ran)[name] + (if did then 1 else 0)
    ensures forall n :: n != name ==>
              (todo - multiset{name})[n] == todo[n] && multiset(RanWith(ran, name, did))[n] == multiset(ran)[n]
  {
  }

  lemma OneDone(s: Handler, i: Inst, todo: multiset<string>, ran: seq<string>, name: string)
    requires Periodic(s) && name in s.insts && name in todo && PartlyDone(s, i, name, todo, ran)
    ensures s.time in i.pending
    ensures PartlyDone(s, AfterDue(i, s.time), name, todo - multiset{name}, RanWith(ran, name, i.enabled))
  {
    var i0, rest, ran' := s.insts[name], todo - multiset{name}, RanWith(ran, name, i.enabled);
    var k := i0.pending[s.time] - todo[name];
    OneMore(todo, ran, name, i.enabled);
    PartlyDoneBy(s, i, name, todo, ran, k);
    PartlyDoneBy(s, AfterDue(i, s.time), name, rest, ran', k + 1);
    PartStep(i0, s.time, k);
    hide PartlyDone;
    hide PartI;
    hide AfterDue;
    hide RanI;
    hide RanWith;
  }

  lemma OrderKept(s: Handler, todo: multiset<string>, ran: seq<string>, name: string, did: bool)
    requires Ordered(s, todo, ran) && name in todo
    requires forall m :: m in todo ==> m in s.insts && s.insts[name].info.priority <= s.insts[m].info.priority
    ensures Ordered(s, todo - multiset{name}, RanWith(ran, name, did))
  {
  }

  /** Only one instance's record and counts change. */
  lemma DoneElsewhere(s: Handler, r: Handler, r': Handler, todo: multiset<string>, todo': multiset<string>,
                      ran: seq<string>, ran': seq<string>, name: string)
    requires r.insts.Keys == s.insts.Keys == r'.insts.Keys && PartlyDoneAll(s, r, todo, ran) && name in s.insts
    requires forall n :: n in s.insts && n != name ==> r'.insts[n] == r.insts[n]
    requires forall n :: n != name ==> todo'[n] == todo[n] && multiset(ran')[n] == multiset(ran)[n]
    requires PartlyDone(s, r'.insts[name], name, todo', ran')
    ensures PartlyDoneAll(s, r', todo', ran')
  {
    hide PartI;
    hide RanI;
    forall n | n in s.insts ensures PartlyDone(s, r'.insts[n], n, todo', ran') {
      if n != name {
        assert PartlyDone(s, r.insts[n], n, todo, ran);
      }
    }
  }

  lemma DoneKept(s: Handler, r: Handler, todo: multiset<string>, ran: seq<string>, name: string)
    requires r.insts.Keys == s.insts.Keys && PartlyDoneAll(s, r, todo, ran) && Periodic(s) && name in todo
    ensures name in r.insts && s.time in r.insts[name].pending
    ensures var r' := r.(insts := r.insts[name := AfterDue(r.insts[name], s.time)]);
            r'.insts.Keys == s.insts.Keys && PartlyDoneAll(s, r', todo - multiset{name}, RanWith(ran, name, r.insts[name].enabled))
  {
    assert name in s.insts;
    OneDone(s, r.insts[name], todo, ran, name);
    OneMore(todo, ran, name, r.insts[name].enabled);
    DoneElsewhere(s, r, r.(insts := r.insts[name := AfterDue(r.insts[name], s.time)]), todo, todo - multiset{name},
                  ran, RanWith(ran, name, r.insts[name].enabled), name);
    hide PartlyDoneAll;
    hide PartlyDone;
    hide AfterDue;
    hide RanWith;
    hide Periodic;
  }

  /** One due entry of instance `name` handled. */
  lemma PartialStep(s: Handler, r: Handler, todo: multiset<string>, ran: seq<string>, name: string)
    requires Partial(s, r, todo, ran) && name in todo
    requires forall m :: m in todo ==> m in s.insts && s.insts[name].info.priority <= s.insts[m].info.priority
    ensures name in r.insts && s.time in r.insts[name].pending
    ensures Partial(s, r.(insts := r.insts[name := AfterDue(r.insts[name], s.time)]), todo - multiset{name},
                    RanWith(ran, name, r.insts[name].enabled))
  {
    DoneKept(s, r, todo, ran, name);
    OrderKept(s, todo, ran, name, r.insts[name].enabled);
    hide PartlyDoneAll;
    hide Ordered;
    hide AfterDue;
    hide Periodic;
    hide RanWith;
  }

  lemma SameClock(s: Handler, r: Handler, todo: multiset<string>, ran: seq<string>)
    requires Partial(s, r, todo, ran)
    ensures r.time == s.time
  {
  }

  lemma PartialEnds(s: Handler, r: Handler, todo: multiset<string>, ran: seq<string>)
    requires Partial(s, r, todo, ran) && (todo == multiset{} || Overdue(s)) && (Overdue(s) ==> r == s && ran == [])
    ensures r == Tick(s) && (forall n :: multiset(ran)[n] == Runs(s, n)) && InPriorityOrder(s.insts, ran)
  {
    if !Overdue(s) {
      forall n | n in s.insts ensures r.insts[n] == TickI(s.insts[n], s.time) && multiset(ran)[n] == RunsI(s.insts[n], s.time) {
        assert PartlyDone(s, r.insts[n], n, todo, ran);
        PartAll(s.insts[n], s.time);
      }
      assert r.insts == Tick(s).insts;
    }
  }

  // ---------- Refreshing step by step ----------

  /** The tables after the instances in `done` have been refreshed. */
  ghost predicate Refreshing(s: Handler, r: Handler, done: set<string>) {
    && r.insts.Keys == s.insts.Keys && r.flags.Keys == s.flags.Keys && r.subs == s.subs && r.time == s.time
    && (forall n :: n in s.insts ==> r.insts[n] == if n in done then RefreshI(s, n) else s.insts[n])
    && (forall t :: t in s.flags ==>
          r.flags[t] == (s.flags[t] && (t.instanceName in done ==> GetType(t) in s.subs)))
  }

  lemma RefreshingStarts(s: Handler)
    ensures Refreshing(s, s, {})
  {
  }

  ghost function KnownNames(s: Handler): set<string> {
    set t | t in s.flags :: t.instanceName
  }

  lemma RefreshingEnds(s: Handler, r: Handler)
    requires Refreshing(s, r, KnownNames(s))
    ensures r == Refresh(s)
  {
    forall n | n in s.insts && n !in KnownNames(s) ensures RefreshI(s, n) == s.insts[n] {
      assert StaleOf(s, n) == {};
      assert !Known(s, n);
      var i := s.insts[n];
      assert i.open - (set t | t in StaleOf(s, n) :: GetType(t)) == i.open;
    }
    assert r.insts == Refresh(s).insts;
    assert r.flags == Refresh(s).flags;
  }

  /** While instance `name` is being refreshed: its topics in `seen` have been dealt with. */
  ghost predicate Walking(s: Handler, r: Handler, done: set<string>, name: string, seen: set<Topic>) {
    && r.insts.Keys == s.insts.Keys && r.flags.Keys == s.flags.Keys && r.subs == s.subs && r.time == s.time
    && name in s.insts && name !in done && (forall t :: t in seen ==> t.instanceName == name)
    && (forall n :: n in s.insts && n != name ==> r.insts[n] == if n in done then RefreshI(s, n) else s.insts[n])
    && r.insts[name] == PrunedI(s.insts[name], StaleAmong(s, seen))
    && (forall t :: t in s.flags ==>
          r.flags[t] == (s.flags[t] && (t.instanceName in done || t in seen ==> GetType(t) in s.subs)))
  }

  ghost function StaleAmong(s: Handler, seen: set<Topic>): set<Topic> {
    set t | t in seen && Stale(s, t)
  }

  /** How many of the topics stay open. */
  ghost predicate NoneLeft(s: Handler, seen: set<Topic>) {
    forall t :: t in seen ==> !(Flag(s, t) && GetType(t) in s.subs)
  }

  lemma WalkStarts(s: Handler, r: Handler, done: set<string>, name: string)
    requires Refreshing(s, r, done) && name in s.insts && name !in done
    ensures Walking(s, r, done, name, {}) && NoneLeft(s, {})
  {
    PruneTwice(s.insts[name], {}, {});
    assert StaleAmong(s, {}) == {};
  }

  lemma WalkPast(s: Handler, r: Handler, done: set<string>, name: string, seen: set<Topic>, t: Topic)
    requires Walking(s, r, done, name, seen) && t in s.flags && t.instanceName == name && t !in seen
    ensures r.flags[t] == s.flags[t]
    ensures !Stale(s, t) ==> Walking(s, r, done, name, seen + {t})
  {
    hide RefreshI;
    if !Stale(s, t) {
      assert StaleAmong(s, seen + {t}) == StaleAmong(s, seen);
    }
  }

  lemma WalkClose(s: Handler, r: Handler, done: set<string>, name: string, seen: set<Topic>, t: Topic)
    requires Walking(s, r, done, name, seen) && t in s.flags && t.instanceName == name && Stale(s, t)
    ensures Walking(s, r.(insts := r.insts[name := CloseI(r.insts[name], t)], flags := r.flags[t := false]), done, name, seen + {t})
  {
    hide RefreshI;
    CloseOneMore(s.insts[name], StaleAmong(s, seen), t);
    assert StaleAmong(s, seen + {t}) == StaleAmong(s, seen) + {t};
    hide PrunedI;
    hide CloseI;
    hide StaleAmong;
  }

  ghost function TopicsOf(s: Handler, name: string): set<Topic> {
    set t | t in s.flags && t.instanceName == name
  }

  lemma WalkEnds(s: Handler, r: Handler, done: set<string>, name: string)
    requires Walking(s, r, done, name, TopicsOf(s, name)) && name in KnownNames(s)
    ensures NoneLeft(s, TopicsOf(s, name)) <==> !Live(s, name)
    ensures r.insts[name] == Pruned(s, name) && Known(s, name)
    ensures Refreshing(s, if Idle(s, name) then Disable(r, name) else r, done + {name})
  {
    assert StaleAmong(s, TopicsOf(s, name)) == StaleOf(s, name);
    assert Known(s, name);
    if t :| Flag(s, t) && t.instanceName == name && GetType(t) in s.subs {
      assert t in TopicsOf(s, name);
    }
    assert RefreshI(s, name) == if Idle(s, name) then ShutI(r.insts[name]) else r.insts[name];
    hide RefreshI;
    hide ShutI;
  }

  // ---------- Leaving every topic ----------

  /** The subscriber table once `fd` has left the topics in `done`. */
  ghost function LeftPart(subs: map<string, set<string>>, fd: string, done: set<string>): map<string, set<string>> {
    map k | k in subs && !(k in done && subs[k] == {fd}) :: if k in done then subs[k] - {fd} else subs[k]
  }

  /** Refreshing after every departure comes to the same as refreshing once at the end. */
  lemma RefreshTwice(s: Handler, a: map<string, set<string>>, b: map<string, set<string>>)
    requires b.Keys <= a.Keys
    ensures Refresh(Refresh(s.(subs := a)).(subs := b)) == Refresh(s.(subs := b))
  {
    RefreshTwiceInsts(s, a, b);
    RefreshTwiceFlags(s, a, b);
    hide RefreshI;
  }

  lemma RefreshTwiceFlags(s: Handler, a: map<string, set<string>>, b: map<string, set<string>>)
    requires b.Keys <= a.Keys
    ensures Refresh(Refresh(s.(subs := a)).(subs := b)).flags == Refresh(s.(subs := b)).flags
  {
    hide RefreshI;
  }

  lemma RefreshInstsAre(s: Handler)
    ensures Refresh(s).insts.Keys == s.insts.Keys && forall n :: n in s.insts ==> Refresh(s).insts[n] == RefreshI(s, n)
  {
    hide RefreshI;
  }

  lemma RefreshTwiceInsts(s: Handler, a: map<string, set<string>>, b: map<string, set<string>>)
    requires b.Keys <= a.Keys
    ensures Refresh(Refresh(s.(subs := a)).(subs := b)).insts == Refresh(s.(subs := b)).insts
  {
    var sa, sb := s.(subs := a), s.(subs := b);
    var m := Refresh(sa).(subs := b);
    RefreshInstsAre(sa);
    RefreshInstsAre(sb);
    RefreshInstsAre(m);
    forall t ensures Flag(m, t) <==> Flag(s, t) && GetType(t) in a {
      RefreshFlags(sa, t);
    }
    hide Refresh;
    forall n | n in s.insts ensures Refresh(m).insts[n] == Refresh(sb).insts[n] {
      RefreshInstTwice(s, sa, sb, m, n);
    }
    hide RefreshI;
    hide Flag;
  }

  lemma RefreshInstTwice(s: Handler, sa: Handler, sb: Handler, m: Handler, n: string)
    requires sa == s.(subs := sa.subs) && sb == s.(subs := sb.subs) && m == Refresh(sa).(subs := sb.subs)
    requires sb.subs.Keys <= sa.subs.Keys && n in s.insts
    requires forall t :: Flag(m, t) <==> Flag(s, t) && GetType(t) in sa.subs
    ensures RefreshI(m, n) == RefreshI(sb, n)
  {
    assert forall t :: Flag(sa, t) <==> Flag(s, t);
    assert forall t :: Flag(sb, t) <==> Flag(s, t);
    assert StaleOf(sb, n) == StaleOf(sa, n) + StaleOf(m, n);
    assert Known(m, n) <==> Known(s, n);
    assert Known(sb, n) <==> Known(s, n) by { assert sb.flags == s.flags; }
    assert Known(sa, n) <==> Known(s, n) by { assert sa.flags == s.flags; }
    assert Live(sb, n) ==> Live(sa, n);
    assert Live(sb, n) <==> Live(m, n);
    var i := s.insts[n];
    PruneTwice(i, StaleOf(sa, n), StaleOf(m, n));
    if Idle(sa, n) {
      assert StaleOf(m, n) == {};
    }
  }

  lemma PruneTwice(i: Inst, a: set<Topic>, b: set<Topic>)
    ensures PrunedI(PrunedI(i, a), b) == PrunedI(i, a + b)
    ensures PrunedI(i, {}) == i
  {
  }

  lemma LeftPartStep(subs: map<string, set<string>>, fd: string, done: set<string>, k: string)
    requires k in subs && k !in done
    ensures var before, after := LeftPart(subs, fd, done), LeftPart(subs, fd, done + {k});
            && k in before && before[k] == subs[k]
            && after == if fd !in subs[k] then before else if subs[k] == {fd} then before - {k} else before[k := subs[k] - {fd}]
  {
    var before, after := LeftPart(subs, fd, done), LeftPart(subs, fd, done + {k});
    if fd !in subs[k] {
      assert subs[k] - {fd} == subs[k];
      assert after == before;
    } else if subs[k] == {fd} {
      assert after == before - {k};
    } else {
      assert after == before[k := subs[k] - {fd}];
    }
  }

  lemma LeftPartEnds(subs: map<string, set<string>>, fd: string)
    ensures LeftPart(subs, fd, subs.Keys) == LeaveAll(subs, fd) && LeftPart(subs, fd, {}) == subs
    ensures !Reads(subs, fd) ==> LeftPart(subs, fd, subs.Keys) == subs
  {
    if !Reads(subs, fd) {
      assert forall k :: k in subs ==> subs[k] != {fd} && subs[k] - {fd} == subs[k];
      assert LeftPart(subs, fd, subs.Keys) == subs;
    }
  }

  ghost predicate ReadsSome(subs: map<string, set<string>>, fd: string, done: set<string>) {
    exists k :: k in subs && k in done && fd in subs[k]
  }

  /** The state once `fd` has left the topics in `done`, refreshing after every departure. */
  ghost predicate LeavingPart(s: Handler, r: Handler, fd: string, done: set<string>) {
    var left := s.(subs := LeftPart(s.subs, fd, done));
    r == if ReadsSome(s.subs, fd, done) then Refresh(left) else left
  }

  lemma LeavingStep(s: Handler, r: Handler, fd: string, done: set<string>, k: string)
    requires LeavingPart(s, r, fd, done) && k in s.subs && k !in done
    ensures r.subs == LeftPart(s.subs, fd, done) && r.insts.Keys == s.insts.Keys && r.flags.Keys == s.flags.Keys
    ensures ReadsSome(s.subs, fd, done + {k}) <==> ReadsSome(s.subs, fd, done) || fd in s.subs[k]
    ensures fd !in s.subs[k] ==> LeavingPart(s, r, fd, done + {k})
    ensures fd in s.subs[k] ==> LeavingPart(s, Refresh(r.(subs := LeftPart(s.subs, fd, done + {k}))), fd, done + {k})
  {
    LeftPartStep(s.subs, fd, done, k);
    var a, b := LeftPart(s.subs, fd, done), LeftPart(s.subs, fd, done + {k});
    assert ReadsSome(s.subs, fd, done + {k}) <==> ReadsSome(s.subs, fd, done) || fd in s.subs[k];
    if fd in s.subs[k] {
      assert b.Keys <= a.Keys;
      RefreshTwice(s, a, b);
    }
    hide LeftPart;
    hide RefreshI;
  }

  lemma HandleKeepsAll(s: Handler, m: Msg)
    requires Inv(s) && Readable(m)
    ensures FlagsOfInstances(s) && forall a :: Inv(Handle(s, m, a))
  {
    forall a ensures Inv(Handle(s, m, a)) {
      HandleKeeps(s, m, a);
    }
  }
}
