/** Whole runs of the handler: messages posted from outside and by plugins, handled in order, and ticks. */
module RunSystem {
  import opened Seqs
  import opened TopicKey
  import opened RunSpec
  import opened RunInvariant

  datatype System = System(h: Handler, queue: seq<Msg>, stopped: bool)

  /** One step; `posted` is what plugins put into the queue while it runs. */
  datatype Step =
    | Post(msg: Msg)
    | Take(a: Answers, posted: seq<Msg>)
    | TickAndWait(cycle: nat, posted: seq<Msg>)

  ghost predicate AllReadable(msgs: seq<Msg>) {
    forall m :: m in msgs ==> Readable(m)
  }

  ghost predicate Possible(s: System, step: Step) {
    match step
    case Post(m) => Readable(m)
    case Take(a, posted) => !s.stopped && |s.queue| > 0 && AllReadable(posted)
    case TickAndWait(cycle, posted) => !s.stopped && AllReadable(posted)
  }

  /** The state after the first message of the queue. */
  ghost function TakeOne(s: System, a: Answers, posted: seq<Msg>): System
    requires |s.queue| > 0 && Readable(s.queue[0])
  {
    System(Handle(s.h, s.queue[0], a), s.queue[1..] + posted, s.queue[0] == Shutdown)
  }

  /** r is reached from s by handling its first message. */
  ghost predicate Taken(s: System, r: System) {
    && !s.stopped && |s.queue| > 0 && Readable(s.queue[0])
    && exists a, posted :: AllReadable(posted) && r == TakeOne(s, a, posted)
  }

  ghost predicate SystemInv(s: System) {
    Inv(s.h) && AllReadable(s.queue)
  }

  ghost function Next(s: System, step: Step): System
    requires SystemInv(s) && Possible(s, step)
  {
    match step
    case Post(m) => s.(queue := s.queue + [m])
    case Take(a, posted) => TakeOne(s, a, posted)
    case TickAndWait(cycle, posted) => s.(h := AddTime(Tick(s.h), cycle), queue := s.queue + posted)
  }

  lemma NextKeeps(s: System, step: Step)
    requires SystemInv(s) && Possible(s, step)
    ensures SystemInv(Next(s, step))
  {
    hide Inv;
    match step
    case Post(m) =>
    case Take(a, posted) =>
      HandleKeeps(s.h, s.queue[0], a);
    case TickAndWait(cycle, posted) =>
      TickKeeps(s.h, cycle);
      TickKeeps(Tick(s.h), cycle);
  }

  ghost predicate PossibleRun(s: System, steps: seq<Step>)
    requires SystemInv(s)
    decreases |steps|
  {
    |steps| > 0 ==> Possible(s, steps[0]) && (NextKeeps(s, steps[0]); PossibleRun(Next(s, steps[0]), steps[1..]))
  }

  ghost function Run(s: System, steps: seq<Step>): System
    requires SystemInv(s) && PossibleRun(s, steps)
    decreases |steps|
  {
    if |steps| == 0 then s
    else
      NextKeeps(s, steps[0]);
      Run(Next(s, steps[0]), steps[1..])
  }

  lemma {:induction false} RunKeeps(s: System, steps: seq<Step>)
    requires SystemInv(s) && PossibleRun(s, steps)
    ensures SystemInv(Run(s, steps))
    decreases |steps|
  {
    if |steps| > 0 {
      NextKeeps(s, steps[0]);
      RunKeeps(Next(s, steps[0]), steps[1..]);
    }
  }

  /** A freshly loaded instance. */
  predicate Fresh(i: Inst) {
    !i.enabled && i.enableCnt == 0 && i.open == {} && i.atPlugin == {} && i.pending == multiset{}
  }

  ghost predicate FreshInsts(insts: map<string, Inst>) {
    forall n :: n in insts ==> Fresh(insts[n])
  }

  /** The system before its first message. */
  function Start(insts: map<string, Inst>): System {
    System(Handler(insts, map[], map[], 0), [], false)
  }

  lemma StartKeeps(insts: map<string, Inst>)
    requires FreshInsts(insts)
    ensures SystemInv(Start(insts))
  {
  }

  // ---------- Whole runs ----------

  /** The messages that enter the queue in a step. */
  function Entering(step: Step): seq<Msg> {
    match step
    case Post(m) => [m]
    case Take(a, posted) => posted
    case TickAndWait(cycle, posted) => posted
  }

  ghost predicate Every(msgs: seq<Msg>, p: Msg -> bool) {
    forall m :: m in msgs ==> p(m)
  }

  ghost predicate EveryStep(steps: seq<Step>, p: Msg -> bool) {
    forall st :: st in steps ==> Every(Entering(st), p)
  }

  lemma NextEvery(s: System, step: Step, p: Msg -> bool)
    requires SystemInv(s) && Possible(s, step) && Every(s.queue, p) && Every(Entering(step), p)
    ensures Every(Next(s, step).queue, p)
  {
  }

  /** Without unlucky subscriptions, flags and subscribers agree throughout a run. */
  lemma {:induction false} RunAgrees(s: System, steps: seq<Step>)
    requires SystemInv(s) && PossibleRun(s, steps) && Agree(s.h)
    requires Every(s.queue, KeyAgrees) && EveryStep(steps, KeyAgrees)
    ensures Agree(Run(s, steps).h)
    decreases |steps|
  {
    if |steps| > 0 {
      var st, r := steps[0], Next(s, steps[0]);
      NextKeeps(s, st);
      NextEvery(s, st, KeyAgrees);
      assert Agree(r.h) by {
        if st.Take? {
          HandleAgrees(s.h, s.queue[0], st.a);
        } else if st.TickAndWait? {
          TickAgrees(s.h, st.cycle);
        }
      }
      RunAgrees(r, steps[1..]);
    }
  }

  /** When only self-naming topics are opened, the kept keys cover what is open at the plugins throughout a run. */
  lemma {:induction false} RunCovers(s: System, steps: seq<Step>)
    requires SystemInv(s) && PossibleRun(s, steps) && Cover(s.h)
    requires Every(s.queue, NamesItself) && EveryStep(steps, NamesItself)
    ensures Cover(Run(s, steps).h)
    decreases |steps|
  {
    if |steps| > 0 {
      var st, r := steps[0], Next(s, steps[0]);
      NextKeeps(s, st);
      NextEvery(s, st, NamesItself);
      assert Cover(r.h) by {
        if st.Take? {
          HandleCovers(s.h, s.queue[0], st.a);
        } else if st.TickAndWait? {
          TickCovers(s.h, st.cycle);
        }
      }
      RunCovers(r, steps[1..]);
    }
  }

  /**
   * In every state reached from start-up, by any readable messages, plugin answers and ticks in any order, an
   * enabled instance is scheduled and no instance has more entries than it was enabled times. If subscription keys
   * are canonical or name topics that are not well-formed, a well-formed topic's flag is raised exactly when it has a
   * subscriber. If the topics of subscriptions and publications name themselves back, a disabled instance has nothing
   * open at its plugin.
   */
  lemma ReachableStates(insts: map<string, Inst>, steps: seq<Step>)
    requires FreshInsts(insts) && SystemInv(Start(insts)) && PossibleRun(Start(insts), steps)
    ensures var h := Run(Start(insts), steps).h;
            && (forall n :: n in h.insts && h.insts[n].enabled ==> |h.insts[n].pending| > 0)
            && (forall n :: n in h.insts ==> |h.insts[n].pending| <= h.insts[n].enableCnt)
            && (EveryStep(steps, KeyAgrees) ==> forall t :: WellFormed(t) ==> (Flag(h, t) <==> Subscribed(h, GetType(t))))
            && (EveryStep(steps, NamesItself) ==> forall n :: n in h.insts && !h.insts[n].enabled ==> h.insts[n].atPlugin == {})
  {
    var s := Start(insts);
    RunKeeps(s, steps);
    var h := Run(s, steps).h;
    forall n | n in h.insts ensures Scheduled(h.insts[n]) {
    }
    if EveryStep(steps, KeyAgrees) {
      RunAgrees(s, steps);
    }
    if EveryStep(steps, NamesItself) {
      RunCovers(s, steps);
    }
    hide Run;
  }

  // ---------- Flags and the plugin's own view ----------

  /** A raised flag does not mean that the plugin has the topic open. */
  ghost predicate FlagsOpen(s: Handler) {
    forall t :: Flag(s, t) && t.instanceName in s.insts ==> t in s.insts[t.instanceName].atPlugin
  }

  /** Disabling an instance keeps that reading of the flags exactly when none of its flags is raised. */
  lemma DisableAndFlags(s: Handler, n: string)
    requires Cover(s) && FlagsOpen(s) && n in s.insts
    ensures FlagsOpen(Disable(s, n)) <==> forall t :: Flag(s, t) ==> t.instanceName != n
  {
    var r := Disable(s, n);
    DisableCovers(s, n);
    assert forall t :: Flag(r, t) <==> Flag(s, t);
    if t :| Flag(s, t) && t.instanceName == n {
      assert Flag(r, t) && t !in r.insts[n].atPlugin;
    } else {
      assert forall t :: Flag(s, t) && t.instanceName in s.insts ==> r.insts[t.instanceName] == s.insts[t.instanceName];
    }
  }

  /**
   * Such a state is reachable: subscribe, disable by command, subscribe again. The second subscription is
   * accepted and the instance runs, but the plugin is never asked to open the topic again.
   */
  lemma ResubscribedButClosed(s: Handler, key: string, a: string, b: string, yes: Answers)
    requires Cover(s) && Canonical(key) && yes == Answers(true, true)
    requires GetTopicFromType(key).value.instanceName in s.insts
    ensures var t := GetTopicFromType(key).value;
            var first := SubscribeTo(s, key, a, yes).0;
            var again := SubscribeTo(Disable(first, t.instanceName), key, b, yes);
            && again.1 && {a, b} <= again.0.subs[key] && Flag(again.0, t)
            && again.0.insts[t.instanceName].enabled && again.0.insts[t.instanceName].atPlugin == {}
  {
    var t := GetTopicFromType(key).value;
    var first := SubscribeTo(s, key, a, yes).0;
    SubscribeCovers(s, key, a, yes);
    DisableCovers(first, t.instanceName);
    assert Flag(first, t) && a in first.subs[key];
  }

  // ---------- Cascading teardown ----------

  /** Messages that only take things down. */
  predicate TakesDown(m: Msg) {
    m.Disabled? || m.DisabledForce? || m.Unsubscribe? || m.UnsubscribeSdk?
  }

  ghost predicate AllUnsubscribe(msgs: seq<Msg>) {
    forall m :: m in msgs ==> m.Unsubscribe?
  }

  ghost function RaisedFlags(s: Handler): set<Topic> {
    set t | t in s.flags && s.flags[t]
  }

  ghost function EnabledInsts(s: Handler): set<string> {
    set n | n in s.insts && s.insts[n].enabled
  }

  /** How much an unsubscription can still take down. */
  ghost function Standing(s: Handler): nat {
    |RaisedFlags(s)| + |EnabledInsts(s)|
  }

  /** How many messages did not come from a plugin being taken down. */
  ghost function Others(msgs: seq<Msg>): nat {
    if |msgs| == 0 then 0 else (if msgs[0].Unsubscribe? then 0 else 1) + Others(msgs[1..])
  }

  lemma {:induction false} OthersAppend(a: seq<Msg>, b: seq<Msg>)
    ensures Others(a + b) == Others(a) + Others(b)
    decreases |a|
  {
    if |a| == 0 {
      assert a + b == b;
    } else {
      assert (a + b)[1..] == a[1..] + b;
      OthersAppend(a[1..], b);
    }
  }

  lemma {:induction false} OthersNone(b: seq<Msg>)
    requires AllUnsubscribe(b)
    ensures Others(b) == 0
    decreases |b|
  {
    if |b| > 0 {
      OthersNone(b[1..]);
    }
  }

  /** Plugins are called during an unsubscription only to close a stale topic or to disable an idle instance. */
  ghost predicate CallsPlugins(s: Handler) {
    (exists t :: Stale(s, t)) || exists n :: n in s.insts && Idle(s, n)
  }

  lemma SubsetSize<T>(a: set<T>, b: set<T>)
    requires a <= b
    ensures |a| <= |b| && (a != b ==> |a| < |b|)
  {
    assert b == a + (b - a);
    if a != b {
      assert b - a != {};
    }
  }

  /** A refresh that calls a plugin lowers a flag or disables an instance, and never the opposite. */
  lemma RefreshTakesDown(s: Handler)
    ensures Standing(Refresh(s)) <= Standing(s)
    ensures CallsPlugins(s) ==> Standing(Refresh(s)) < Standing(s)
  {
    var r := Refresh(s);
    assert RaisedFlags(r) <= RaisedFlags(s) && EnabledInsts(r) <= EnabledInsts(s);
    SubsetSize(RaisedFlags(r), RaisedFlags(s));
    SubsetSize(EnabledInsts(r), EnabledInsts(s));
    if t :| Stale(s, t) {
      assert t in RaisedFlags(s) && t !in RaisedFlags(r);
    }
    if n :| n in s.insts && Idle(s, n) {
      assert n in EnabledInsts(s) && n !in EnabledInsts(r);
    }
  }

  /** Handling one message of a teardown, with what the plugins post meanwhile. */
  ghost predicate TeardownStep(s: System, a: Answers, posted: seq<Msg>) {
    && |s.queue| > 0 && TakesDown(s.queue[0]) && Readable(s.queue[0])
    && AllUnsubscribe(posted)
    && (posted != [] && s.queue[0].Unsubscribe? ==>
          CallsPlugins(s.h.(subs := Leave(s.h.subs, s.queue[0].key, s.queue[0].who))))
  }

  /** Lexicographic order on: messages from outside, live flags and instances, queue length. */
  ghost predicate Less(a: System, b: System) {
    || Others(a.queue) < Others(b.queue)
    || (Others(a.queue) == Others(b.queue) && Standing(a.h) < Standing(b.h))
    || (Others(a.queue) == Others(b.queue) && Standing(a.h) == Standing(b.h) && |a.queue| < |b.queue|)
  }

  /** Every step of a teardown gets closer to its end, whatever finite batches of unsubscriptions plugins post. */
  lemma TeardownEnds(s: System, a: Answers, posted: seq<Msg>)
    requires TeardownStep(s, a, posted)
    ensures Less(TakeOne(s, a, posted), s)
  {
    OthersAppend(s.queue[1..], posted);
    OthersNone(posted);
    var m := s.queue[0];
    if m.Unsubscribe? {
      RefreshTakesDown(s.h.(subs := Leave(s.h.subs, m.key, m.who)));
    }
  }

  /** r is reached from s by handling one message of a teardown. */
  ghost predicate TeardownTo(s: System, r: System) {
    exists a, posted :: TeardownStep(s, a, posted) && r == TakeOne(s, a, posted)
  }

  ghost predicate AllTakeDown(msgs: seq<Msg>) {
    forall m :: m in msgs ==> TakesDown(m)
  }

  /** The drain loop of HandleMessage over a queue of teardown messages comes to an empty queue. */
  lemma {:induction false} DrainEnds(chain: nat -> System, i: nat)
    requires forall k: nat :: chain(k).queue != [] ==> TeardownTo(chain(k), chain(k + 1))
    ensures exists k: nat :: k >= i && chain(k).queue == []
    decreases Others(chain(i).queue), Standing(chain(i).h), |chain(i).queue|
  {
    if chain(i).queue != [] {
      var a, posted :| TeardownStep(chain(i), a, posted) && chain(i + 1) == TakeOne(chain(i), a, posted);
      TeardownEnds(chain(i), a, posted);
      DrainEnds(chain, i + 1);
    }
  }

  /** A teardown never gets stuck: what plugins post are teardown messages again. */
  lemma TeardownGoesOn(s: System, a: Answers, posted: seq<Msg>)
    requires AllTakeDown(s.queue) && AllReadable(s.queue) && AllReadable(posted) && TeardownStep(s, a, posted)
    ensures AllTakeDown(TakeOne(s, a, posted).queue) && AllReadable(TakeOne(s, a, posted).queue)
    ensures !TakeOne(s, a, posted).stopped
  {
  }
}
